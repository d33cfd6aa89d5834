/** The deployer: submissions, suspension and the runner, interleaved at will. */
module Deployer {
  import opened Common

  /** What is compared to decide whether something is deployed already. */
  datatype Deployed = Deployed(outPath: string, operation: string)

  datatype Submission = Submission(generation: string, what: Deployed)

  /** Where the runner is: waiting for the wake-up token, woken, blocked at the
      suspension gate, past it, holding a generation it took, or running its
      deployment. Taking when nothing is pending dereferences a nil generation. */
  datatype Runner = Waiting | Woken | Gated | Passed | Holding(taken: Submission) | Running | Crashed

  datatype State = State(
    pending: Option<Submission>,
    wake: bool,
    suspended: bool,
    resume: bool,
    deployment: Option<Deployed>,
    previous: Option<Deployed>,
    runner: Runner)

  datatype Action =
    | Submit(submission: Submission, force: bool)
    | Suspend
    | Resume
    | Wake
    | Check
    | Pass
    | Take
    | Record(operation: string)
    | Finish

  predicate AlreadyDeployed(s: State, what: Deployed) {
    s.previous == Some(what)
  }

  predicate Accepts(s: State, a: Action) {
    a.Submit? && (a.force || !AlreadyDeployed(s, a.submission.what))
  }

  predicate Enabled(s: State, a: Action) {
    match a
    case Wake => s.runner.Waiting? && s.wake
    case Check => s.runner.Woken?
    case Pass => s.runner.Gated? && s.resume
    case Take => s.runner.Passed?
    case Record(_) => s.runner.Holding?
    case Finish => s.runner.Running?
    case _ => true
  }

  function Next(s: State, a: Action): State
    requires Enabled(s, a)
  {
    match a
    case Submit(g, _) => if Accepts(s, a) then s.(pending := Some(g), wake := true) else s
    case Suspend => s.(suspended := true)
    case Resume => s.(suspended := false, resume := true)
    case Wake => s.(wake := false, runner := Woken)
    case Check => s.(runner := if s.suspended then Gated else Passed)
    case Pass => s.(resume := false, runner := Passed)
    case Take =>
      s.(pending := None, runner := match s.pending case Some(g) => Holding(g) case None => Crashed)
    case Record(op) =>
      s.(previous := s.deployment, deployment := Some(Deployed(s.runner.taken.what.outPath, op)), runner := Running)
    case Finish => s.(runner := Waiting)
  }

  class Deployer {
    var pending: Option<Submission>
    var wake: bool
    var suspended: bool
    var resume: bool
    var deployment: Option<Deployed>
    var previous: Option<Deployed>
    var runner: Runner

    function Current(): State
      reads this
    {
      State(pending, wake, suspended, resume, deployment, previous, runner)
    }

    constructor (last: Option<Deployed>, suspended: bool)
      ensures Current() == Start(last, suspended)
    {
      pending, wake, this.suspended, resume := None, false, suspended, false;
      deployment, previous, runner := last, last, Waiting;
    }

    predicate IsAlreadyDeployed(what: Deployed)
      reads this
      ensures IsAlreadyDeployed(what) == AlreadyDeployed(Current(), what)
    {
      if previous.None? then false
      else if what.outPath != previous.value.outPath then false
      else previous.value.operation == what.operation
    }

    /** The token is sent without blocking: a token already there stays. */
    method Submit(g: Submission, force: bool)
      modifies this`pending, this`wake
      ensures Current() == Next(old(Current()), Action.Submit(g, force))
    {
      if force || !IsAlreadyDeployed(g.what) {
        pending := Some(g);
        if !wake {
          wake := true;
        }
      }
    }

    method Suspend()
      modifies this`suspended
      ensures Current() == Next(old(Current()), Action.Suspend)
    {
      suspended := true;
    }

    method Resume()
      modifies this`suspended, this`resume
      ensures Current() == Next(old(Current()), Action.Resume)
    {
      suspended := false;
      if !resume {
        resume := true;
      }
    }

    /** The steps of the runner, in the order in which its loop takes them. */
    method RunnerStep(operation: string) returns (a: Option<Action>)
      modifies this
      ensures a.None? ==>
        unchanged(this) && (runner.Crashed? || (runner.Waiting? && !wake) || (runner.Gated? && !resume))
      ensures a.Some? ==> Enabled(old(Current()), a.value) && Current() == Next(old(Current()), a.value)
      ensures a.Some? ==> !a.value.Submit? && !a.value.Suspend? && !a.value.Resume?
    {
      a := None;
      match runner {
        case Waiting =>
          if wake {
            wake, runner, a := false, Woken, Some(Wake);
          }
        case Woken =>
          if suspended {
            runner := Gated;
          } else {
            runner := Passed;
          }
          a := Some(Check);
        case Gated =>
          if resume {
            resume, runner, a := false, Passed, Some(Pass);
          }
        case Passed =>
          var g := pending;
          pending := None;
          runner := if g.Some? then Holding(g.value) else Crashed;
          a := Some(Take);
        case Holding(g) =>
          previous := deployment;
          deployment := Some(Deployed(g.what.outPath, operation));
          runner, a := Running, Some(Record(operation));
        case Running =>
          runner, a := Waiting, Some(Finish);
        case Crashed =>
      }
    }
  }

  // ------------------------------------------------------------------- runs

  function Start(last: Option<Deployed>, suspended: bool): State {
    State(None, false, suspended, false, last, last, Waiting)
  }

  /** A run: actions of any number of callers and of the runner, in any order
      in which each is possible. */
  predicate IsRun(s: State, run: seq<Action>) {
    Replay(s, run).Some?
  }

  function After(s: State, run: seq<Action>): State
    requires IsRun(s, run)
  {
    Replay(s, run).value
  }

  function Replay(s: State, run: seq<Action>): Option<State> {
    if run == [] then Some(s)
    else
      match Replay(s, run[..|run| - 1])
      case None => None
      case Some(mid) => if Enabled(mid, run[|run| - 1]) then Some(Next(mid, run[|run| - 1])) else None
  }

  lemma Extend(s: State, run: seq<Action>, a: Action)
    requires IsRun(s, run) && Enabled(After(s, run), a)
    ensures IsRun(s, run + [a]) && After(s, run + [a]) == Next(After(s, run), a)
  {
    assert (run + [a])[..|run|] == run;
  }

  /** Runs can be strung together. */
  lemma {:induction false} Compose(s: State, first: seq<Action>, rest: seq<Action>)
    requires IsRun(s, first) && IsRun(After(s, first), rest)
    ensures IsRun(s, first + rest) && After(s, first + rest) == After(After(s, first), rest)
  {
    if rest == [] {
      assert first + rest == first;
    } else {
      var front, a := rest[..|rest| - 1], rest[|rest| - 1];
      Compose(s, first, front);
      Extend(s, first + front, a);
      assert first + front + [a] == first + rest;
    }
  }

  /** The last submission accepted since the runner last took one. */
  ghost function LastAccepted(s: State, run: seq<Action>): Option<Submission>
    requires IsRun(s, run)
  {
    if run == [] then None
    else
      var front, a := run[..|run| - 1], run[|run| - 1];
      if a.Take? then None
      else if Accepts(After(s, front), a) then Some(a.submission)
      else LastAccepted(s, front)
  }

  /** A submission was accepted since the runner was last woken. */
  ghost predicate AcceptedSinceWake(s: State, run: seq<Action>)
    requires IsRun(s, run)
  {
    if run == [] then false
    else
      var front, a := run[..|run| - 1], run[|run| - 1];
      !a.Wake? && (Accepts(After(s, front), a) || AcceptedSinceWake(s, front))
  }

  predicate IsAwake(s: State) {
    s.runner.Woken? || s.runner.Gated? || s.runner.Passed?
  }

  /** In every interleaving, what is pending is the last submission accepted
      since the last take, and it has a token or an awake runner. */
  lemma {:induction false} NothingIsLost(last: Option<Deployed>, suspended: bool, run: seq<Action>)
    requires IsRun(Start(last, suspended), run)
    ensures var s := After(Start(last, suspended), run);
      && s.pending == LastAccepted(Start(last, suspended), run)
      && (s.pending.Some? ==> s.wake || IsAwake(s))
      && s.wake == AcceptedSinceWake(Start(last, suspended), run)
  {
    if run != [] {
      NothingIsLost(last, suspended, run[..|run| - 1]);
    }
  }

  /** A take yields the last accepted submission; it finds nothing, and the
      runner crashes, exactly when none was accepted since the take before. */
  lemma TakeYieldsLastAccepted(last: Option<Deployed>, suspended: bool, run: seq<Action>)
    requires IsRun(Start(last, suspended), run + [Take])
    ensures IsRun(Start(last, suspended), run)
    ensures var start := Start(last, suspended);
      After(start, run + [Take]).runner ==
        match LastAccepted(start, run) case Some(g) => Holding(g) case None => Crashed
  {
    assert (run + [Take])[..|run|] == run;
    NothingIsLost(last, suspended, run);
  }

  /** Whoever holds a token or is awake will find something pending. */
  predicate NoSpareToken(s: State) {
    s.wake || IsAwake(s) ==> s.pending.Some?
  }

  lemma SafeStep(s: State, a: Action)
    requires Enabled(s, a) && NoSpareToken(s)
    ensures !Next(s, a).runner.Crashed? || s.runner.Crashed?
    ensures NoSpareToken(Next(s, a)) <==> !(a.Take? && s.wake)
  {
  }

  /** No submission is accepted while the runner is awake. */
  ghost predicate NeverSubmittedAwake(s: State, run: seq<Action>)
    requires IsRun(s, run)
  {
    run == [] || (NeverSubmittedAwake(s, run[..|run| - 1])
                  && !(IsAwake(After(s, run[..|run| - 1])) && Accepts(After(s, run[..|run| - 1]), run[|run| - 1])))
  }

  /** A spare token, and with it a possible crash, needs a submission accepted
      between a wake-up and the take that follows it. */
  lemma {:induction false} CrashNeedsSubmissionWhileAwake(last: Option<Deployed>, suspended: bool, run: seq<Action>)
    requires IsRun(Start(last, suspended), run) && NeverSubmittedAwake(Start(last, suspended), run)
    ensures var s := After(Start(last, suspended), run);
      NoSpareToken(s) && !s.runner.Crashed? && (IsAwake(s) ==> !s.wake)
  {
    if run != [] {
      CrashNeedsSubmissionWhileAwake(last, suspended, run[..|run| - 1]);
      SafeStep(After(Start(last, suspended), run[..|run| - 1]), run[|run| - 1]);
    }
  }

  /** The other direction: a submission accepted while the runner is awake leaves
      a spare token behind the deployment that follows. */
  lemma SubmissionWhileAwakeLeavesToken(s: State, g: Submission, op: string)
    requires s.runner.Passed? && !s.suspended
    ensures var run := [Submit(g, true), Take, Record(op), Finish];
      && IsRun(s, run)
      && var t := After(s, run); t.runner.Waiting? && t.wake && t.pending.None? && !t.suspended
  {
    Extend(s, [], Submit(g, true));
    Extend(s, [] + [Submit(g, true)], Take);
    Extend(s, [] + [Submit(g, true)] + [Take], Record(op));
    Extend(s, [] + [Submit(g, true)] + [Take] + [Record(op)], Finish);
    assert [] + [Submit(g, true)] + [Take] + [Record(op)] + [Finish] == [Submit(g, true), Take, Record(op), Finish];
  }

  /** The next pass of the runner then crashes, unless a submission comes first. */
  lemma SpareTokenCrashes(s: State)
    requires s.runner.Waiting? && s.wake && s.pending.None? && !s.suspended
    ensures IsRun(s, [Wake, Check, Take]) && After(s, [Wake, Check, Take]).runner.Crashed?
  {
    Extend(s, [], Wake);
    Extend(s, [] + [Wake], Check);
    Extend(s, [] + [Wake] + [Check], Take);
    assert [] + [Wake] + [Check] + [Take] == [Wake, Check, Take];
  }

  /** A waiting runner is woken by a forced submission and gets past the gate. */
  lemma SubmitWakes(s: State, g: Submission)
    requires s.runner.Waiting? && !s.suspended
    ensures IsRun(s, [Submit(g, true), Wake, Check])
    ensures After(s, [Submit(g, true), Wake, Check]) == s.(pending := Some(g), wake := false, runner := Passed)
  {
    Extend(s, [], Submit(g, true));
    Extend(s, [] + [Submit(g, true)], Wake);
    Extend(s, [] + [Submit(g, true)] + [Wake], Check);
    assert [] + [Submit(g, true)] + [Wake] + [Check] == [Submit(g, true), Wake, Check];
  }

  /** The nil generation is reached from the initial state: it is enough to submit
      the same generation twice, the second time while the runner is awake. */
  lemma SubmittingTwiceCrashes(g: Submission, op: string)
    ensures var run := [Submit(g, true), Wake, Check, Submit(g, true), Take, Record(op), Finish, Wake, Check, Take];
      IsRun(Start(None, false), run) && After(Start(None, false), run).runner.Crashed?
  {
    var s := Start(None, false);
    var first, second, third :=
      [Submit(g, true), Wake, Check], [Submit(g, true), Take, Record(op), Finish], [Wake, Check, Take];
    SubmitWakes(s, g);
    SubmissionWhileAwakeLeavesToken(After(s, first), g, op);
    Compose(s, first, second);
    SpareTokenCrashes(After(s, first + second));
    Compose(s, first + second, third);
    assert first + second + third
        == [Submit(g, true), Wake, Check, Submit(g, true), Take, Record(op), Finish, Wake, Check, Take];
  }

  // -------------------------------------------------------------- suspension

  ghost function Count(run: seq<Action>, a: Action): nat {
    if run == [] then 0 else Count(run[..|run| - 1], a) + if run[|run| - 1] == a then 1 else 0
  }

  /** The runner passes the gate at most once per Resume. */
  lemma {:induction false} PassesAreBounded(last: Option<Deployed>, suspended: bool, run: seq<Action>)
    requires IsRun(Start(last, suspended), run)
    ensures Count(run, Pass) + (if After(Start(last, suspended), run).resume then 1 else 0) <= Count(run, Resume)
  {
    if run != [] {
      PassesAreBounded(last, suspended, run[..|run| - 1]);
    }
  }

  /** A Resume came after the last pass of the gate. */
  ghost predicate ResumedSincePass(run: seq<Action>) {
    exists i :: IsUnusedResume(run, i)
  }

  ghost predicate IsUnusedResume(run: seq<Action>, i: int) {
    0 <= i < |run| && run[i].Resume? && forall k :: i < k < |run| ==> !run[k].Pass?
  }

  lemma ResumedSincePassNext(run: seq<Action>, a: Action)
    ensures ResumedSincePass(run + [a]) <==> a.Resume? || (!a.Pass? && ResumedSincePass(run))
  {
    var t := run + [a];
    if a.Resume? {
      assert IsUnusedResume(t, |run|);
    }
    if !a.Pass? && ResumedSincePass(run) {
      var i :| IsUnusedResume(run, i);
      assert IsUnusedResume(t, i);
    }
    if !a.Resume? && ResumedSincePass(t) {
      var i :| IsUnusedResume(t, i);
      assert t[|run|] == a && forall k :: 0 <= k < |run| ==> run[k] == t[k];
      assert IsUnusedResume(run, i);
    }
  }

  /** The token that opens the gate is there exactly when a Resume came after the
      last pass. */
  lemma {:induction false} TokenIsUnusedResume(last: Option<Deployed>, suspended: bool, run: seq<Action>)
    requires IsRun(Start(last, suspended), run)
    ensures After(Start(last, suspended), run).resume <==> ResumedSincePass(run)
  {
    if run != [] {
      TokenIsUnusedResume(last, suspended, run[..|run| - 1]);
      ResumedSincePassNext(run[..|run| - 1], run[|run| - 1]);
      assert run[..|run| - 1] + [run[|run| - 1]] == run;
    }
  }

  /** What a caller of Suspend can rely on: without a new Resume, the runner that
      reaches the gate stays there, unless a Resume from before the suspension was
      never used; then, and only then, it can pass. */
  lemma SuspensionIsPassedIff(last: Option<Deployed>, suspended: bool, run: seq<Action>, rest: seq<Action>)
    requires IsRun(Start(last, suspended), run + [Suspend] + rest)
    requires Resume !in rest && Pass !in rest
    requires After(Start(last, suspended), run + [Suspend] + rest).runner.Gated?
    ensures Enabled(After(Start(last, suspended), run + [Suspend] + rest), Pass) <==> ResumedSincePass(run)
  {
    TokenIsUnusedResume(last, suspended, run + [Suspend] + rest);
    ResumedSincePassNext(run, Suspend);
    ResumedSincePassKeeps(run + [Suspend], rest);
  }

  lemma {:induction false} ResumedSincePassKeeps(run: seq<Action>, rest: seq<Action>)
    requires Resume !in rest && Pass !in rest
    ensures ResumedSincePass(run + rest) <==> ResumedSincePass(run)
  {
    if rest == [] {
      assert run + rest == run;
    } else {
      var front, a := rest[..|rest| - 1], rest[|rest| - 1];
      ResumedSincePassKeeps(run, front);
      ResumedSincePassNext(run + front, a);
      assert run + front + [a] == run + rest;
    }
  }

  /** A Resume nobody waited for is not lost: it lets the runner through the gate
      of a later suspension. */
  lemma StaleResumePasses(g: Submission)
    ensures var run := [Resume, Suspend, Submit(g, true), Wake, Check, Pass];
      && IsRun(Start(None, false), run)
      && After(Start(None, false), run).suspended && After(Start(None, false), run).runner.Passed?
  {
    var s := Start(None, false);
    Extend(s, [], Resume);
    Extend(s, [] + [Resume], Suspend);
    Extend(s, [] + [Resume] + [Suspend], Submit(g, true));
    Extend(s, [] + [Resume] + [Suspend] + [Submit(g, true)], Wake);
    Extend(s, [] + [Resume] + [Suspend] + [Submit(g, true)] + [Wake], Check);
    Extend(s, [] + [Resume] + [Suspend] + [Submit(g, true)] + [Wake] + [Check], Pass);
    assert [] + [Resume] + [Suspend] + [Submit(g, true)] + [Wake] + [Check] + [Pass]
        == [Resume, Suspend, Submit(g, true), Wake, Check, Pass];
  }

  /** A Suspend came after the last Resume. */
  ghost predicate SuspendedSinceResume(run: seq<Action>) {
    exists i :: IsStandingSuspend(run, i)
  }

  ghost predicate IsStandingSuspend(run: seq<Action>, i: int) {
    0 <= i < |run| && run[i].Suspend? && forall k :: i < k < |run| ==> !run[k].Resume?
  }

  /** What the callers of Suspend and Resume have asked for: the last of them
      decides, and the configuration when there was none. */
  ghost predicate IsToBeSuspended(suspended: bool, run: seq<Action>) {
    SuspendedSinceResume(run) || (suspended && forall i :: 0 <= i < |run| ==> !run[i].Resume?)
  }

  lemma SuspendedSinceResumeNext(run: seq<Action>, a: Action)
    ensures SuspendedSinceResume(run + [a]) <==> a.Suspend? || (!a.Resume? && SuspendedSinceResume(run))
  {
    var t := run + [a];
    if a.Suspend? {
      assert IsStandingSuspend(t, |run|);
    }
    if !a.Resume? && SuspendedSinceResume(run) {
      var i :| IsStandingSuspend(run, i);
      assert IsStandingSuspend(t, i);
    }
    if !a.Suspend? && SuspendedSinceResume(t) {
      var i :| IsStandingSuspend(t, i);
      assert t[|run|] == a && forall k :: 0 <= k < |run| ==> run[k] == t[k];
      assert IsStandingSuspend(run, i);
    }
  }

  lemma IsToBeSuspendedNext(suspended: bool, run: seq<Action>, a: Action)
    ensures IsToBeSuspended(suspended, run + [a]) <==> a.Suspend? || (!a.Resume? && IsToBeSuspended(suspended, run))
  {
    SuspendedSinceResumeNext(run, a);
    var t := run + [a];
    assert t[|run|] == a && forall k :: 0 <= k < |run| ==> run[k] == t[k];
  }

  /** In every run the deployer is suspended exactly when its callers last asked
      for that. */
  lemma {:induction false} SuspendedAsAsked(last: Option<Deployed>, suspended: bool, run: seq<Action>)
    requires IsRun(Start(last, suspended), run)
    ensures After(Start(last, suspended), run).suspended <==> IsToBeSuspended(suspended, run)
  {
    if run != [] {
      var front, a := run[..|run| - 1], run[|run| - 1];
      SuspendedAsAsked(last, suspended, front);
      IsToBeSuspendedNext(suspended, front, a);
      assert front + [a] == run;
    }
  }

  /** A woken runner goes to the gate exactly when the deployer is to be suspended;
      after a Resume it passes without stopping. */
  lemma WokenRunnerPassesIff(last: Option<Deployed>, suspended: bool, run: seq<Action>)
    requires IsRun(Start(last, suspended), run) && After(Start(last, suspended), run).runner.Woken?
    ensures IsRun(Start(last, suspended), run + [Check])
    ensures After(Start(last, suspended), run + [Check]).runner
         == if IsToBeSuspended(suspended, run) then Gated else Passed
  {
    SuspendedAsAsked(last, suspended, run);
    Extend(Start(last, suspended), run, Check);
  }

  // -------------------------------------------------- repeated submissions

  /** The deployments recorded by a run. */
  ghost function Records(s: State, run: seq<Action>): seq<Deployed>
    requires IsRun(s, run)
  {
    if run == [] then []
    else
      var front, a := run[..|run| - 1], run[|run| - 1];
      if a.Record? then Records(s, front) + [Deployed(After(s, front).runner.taken.what.outPath, a.operation)]
      else Records(s, front)
  }

  lemma OnlyRecordsChange(s: State, a: Action)
    requires Enabled(s, a)
    ensures var t := Next(s, a);
      if a.Record? then t.previous == s.deployment
        && t.deployment == Some(Deployed(s.runner.taken.what.outPath, a.operation))
      else t.previous == s.previous && t.deployment == s.deployment
  {
  }

  /** The deployment that submissions are compared with is the one before the
      last. */
  lemma {:induction false} PreviousIsBeforeLast(last: Option<Deployed>, suspended: bool, run: seq<Action>)
    requires IsRun(Start(last, suspended), run)
    ensures var s, r := After(Start(last, suspended), run), Records(Start(last, suspended), run);
      && s.deployment == (if |r| >= 1 then Some(r[|r| - 1]) else last)
      && s.previous == (if |r| >= 2 then Some(r[|r| - 2]) else last)
  {
    if run != [] {
      var front := run[..|run| - 1];
      PreviousIsBeforeLast(last, suspended, front);
      OnlyRecordsChange(After(Start(last, suspended), front), run[|run| - 1]);
    }
  }

  /** A submission of what was just deployed is documented to be skipped. Any
      submission is skipped exactly when the deployment before the last is the
      submitted one; so a repeat of the last is skipped exactly when the last two
      are the same. */
  lemma RepeatIsSkippedIff(last: Option<Deployed>, suspended: bool, run: seq<Action>, g: Submission)
    requires IsRun(Start(last, suspended), run)
    ensures var s, r := After(Start(last, suspended), run), Records(Start(last, suspended), run);
      && (!Accepts(s, Submit(g, false)) <==> if |r| >= 2 then r[|r| - 2] == g.what else last == Some(g.what))
      && (s.deployment == Some(g.what) ==>
            (!Accepts(s, Submit(g, false)) <==> if |r| >= 2 then r[|r| - 2] == r[|r| - 1] else last == s.deployment))
  {
    PreviousIsBeforeLast(last, suspended, run);
  }

  /** A waiting runner takes a forced submission through its whole loop. */
  lemma Deploys(s: State, g: Submission, op: string)
    requires s.runner.Waiting? && !s.suspended
    ensures var run := [Submit(g, true), Wake, Check, Take, Record(op), Finish];
      && IsRun(s, run)
      && After(s, run) == s.(pending := None, wake := false, previous := s.deployment,
                             deployment := Some(Deployed(g.what.outPath, op)))
  {
    SubmitWakes(s, g);
    var first, t := [Submit(g, true), Wake, Check], s.(pending := Some(g), wake := false, runner := Passed);
    Extend(t, [], Take);
    Extend(t, [] + [Take], Record(op));
    Extend(t, [] + [Take] + [Record(op)], Finish);
    assert [] + [Take] + [Record(op)] + [Finish] == [Take, Record(op), Finish];
    Compose(s, first, [Take, Record(op), Finish]);
    assert first + [Take, Record(op), Finish] == [Submit(g, true), Wake, Check, Take, Record(op), Finish];
  }

  /** A repeat of the last deployment that is accepted: unless it was also the
      deployment before the start, deploying once is not enough to be skipped. */
  lemma RepeatIsAccepted(last: Option<Deployed>, g: Submission)
    requires last != Some(g.what)
    ensures var run := [Submit(g, true), Wake, Check, Take, Record(g.what.operation), Finish];
      && IsRun(Start(last, false), run)
      && After(Start(last, false), run).deployment == Some(g.what)
      && Accepts(After(Start(last, false), run), Submit(g, false))
  {
    Deploys(Start(last, false), g, g.what.operation);
  }
}
