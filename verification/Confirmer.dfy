/** The confirmer: a generation submitted to it is emitted once confirmed by the
    user, by a timer, or at once, depending on the mode. */
module Confirmer {
  import opened Common

  datatype Mode = Manual | Auto | Without

  /** What the event loop receives. A tick can only come from an armed timer:
      stopping a timer withdraws a tick not yet received. */
  datatype Event = Submit(uuid: Uuid) | Confirm(uuid: Uuid) | Cancel | Tick

  datatype State = State(mode: Mode, submitted: Uuid, confirmed: Uuid, armed: bool, notified: bool)

  // ---------------------------------------------------------------- one event

  function Received(s: State, e: Event): State {
    match e
    case Submit(u) =>
      s.(notified := false, submitted := u,
         confirmed := if s.mode == Without then u else s.confirmed,
         armed := s.armed || s.mode == Auto)
    case Confirm(u) => s.(confirmed := u)
    case Cancel => s.(confirmed := "", armed := false)
    case Tick => if s.armed then s.(armed := false, confirmed := s.submitted) else s
  }

  predicate Ready(s: State) {
    !s.notified && s.submitted != "" && s.confirmed == s.submitted
  }

  function Next(s: State, e: Event): State {
    var r := Received(s, e);
    if Ready(r) then r.(notified := true, confirmed := "", submitted := "") else r
  }

  /** What handling e in s emits. */
  function Emits(s: State, e: Event): Option<Uuid> {
    var r := Received(s, e);
    if Ready(r) then Some(r.confirmed) else None
  }

  class Confirmer {
    const mode: Mode
    var submitted: Uuid
    var confirmed: Uuid
    var armed: bool
    var notified: bool

    function Current(): State
      reads this
    {
      State(mode, submitted, confirmed, armed, notified)
    }

    constructor (mode: Mode)
      ensures Current() == Start(mode)
    {
      this.mode := mode;
      submitted, confirmed, armed, notified := "", "", false, false;
    }

    /** One turn of the event loop. */
    method Handle(e: Event) returns (emitted: Option<Uuid>)
      modifies this
      ensures Current() == Next(old(Current()), e)
      ensures emitted == Emits(old(Current()), e)
    {
      match e {
        case Submit(u) =>
          notified := false;
          submitted := u;
          match mode {
            case Manual =>
            case Without => confirmed := u;
            case Auto => armed := true;
          }
        case Confirm(u) =>
          confirmed := u;
        case Cancel =>
          confirmed := "";
          armed := false;
        case Tick =>
          if armed {
            armed := false;
            confirmed := submitted;
          }
      }
      emitted := None;
      if !notified && submitted != "" && confirmed != "" && confirmed == submitted {
        notified := true;
        emitted := Some(confirmed);
        confirmed, submitted := "", "";
      }
    }
  }

  // ------------------------------------------------------------------- runs

  function Start(mode: Mode): State {
    State(mode, "", "", false, false)
  }

  function After(mode: Mode, es: seq<Event>): State {
    if es == [] then Start(mode) else Next(After(mode, es[..|es| - 1]), es[|es| - 1])
  }

  /** What the last event of a run emits. */
  function Emission(mode: Mode, es: seq<Event>): Option<Uuid> {
    if es == [] then None else Emits(After(mode, es[..|es| - 1]), es[|es| - 1])
  }

  function Emissions(mode: Mode, es: seq<Event>): seq<Uuid> {
    if es == [] then [] else WithEmission(Emissions(mode, es[..|es| - 1]), Emission(mode, es))
  }

  function WithEmission(before: seq<Uuid>, emitted: Option<Uuid>): seq<Uuid> {
    match emitted
    case None => before
    case Some(u) => before + [u]
  }

  function Submissions(es: seq<Event>): seq<Uuid> {
    if es == [] then []
    else
      var before := Submissions(es[..|es| - 1]);
      if es[|es| - 1].Submit? then before + [es[|es| - 1].uuid] else before
  }

  // ----------------------------------------------- reading a history backwards

  /** The events since the last emission, which itself cleared the state. */
  function Since(mode: Mode, es: seq<Event>): seq<Event> {
    if es == [] || Emission(mode, es).Some? then []
    else Since(mode, es[..|es| - 1]) + [es[|es| - 1]]
  }

  /** The uuid of the last submission, or "". */
  function LastSubmitted(h: seq<Event>): Uuid {
    if h == [] then ""
    else if h[|h| - 1].Submit? then h[|h| - 1].uuid
    else LastSubmitted(h[..|h| - 1])
  }

  /** The uuid of the last confirmation, or "" if a cancellation came after it. */
  function LastConfirmed(h: seq<Event>): Uuid {
    if h == [] then ""
    else match h[|h| - 1]
      case Confirm(u) => u
      case Cancel => ""
      case _ => LastConfirmed(h[..|h| - 1])
  }

  /** A submission since which there was neither a cancellation nor a tick. */
  predicate TimerRuns(mode: Mode, es: seq<Event>) {
    if es == [] then false
    else match es[|es| - 1]
      case Submit(_) => mode == Auto
      case Confirm(_) => TimerRuns(mode, es[..|es| - 1])
      case _ => false
  }

  lemma {:induction false} TimerIsArmed(mode: Mode, es: seq<Event>)
    ensures After(mode, es).armed == TimerRuns(mode, es) && After(mode, es).mode == mode
    ensures TimerRuns(mode, es) ==> mode == Auto
  {
    if es != [] {
      TimerIsArmed(mode, es[..|es| - 1]);
    }
  }

  /** The confirmation that stands: the last one since the last emission, unless
      it was cancelled, or a running timer ticked when nothing was submitted. */
  function Standing(mode: Mode, es: seq<Event>): Uuid {
    if es == [] || Emission(mode, es).Some? then ""
    else
      var front := es[..|es| - 1];
      match es[|es| - 1]
      case Confirm(u) => u
      case Cancel => ""
      case Tick => if TimerRuns(mode, front) then "" else Standing(mode, front)
      case Submit(_) => if mode == Without then "" else Standing(mode, front)
  }

  /** What the state tells about the events since the last emission. */
  ghost predicate Tells(s: State, h: seq<Event>) {
    && s.submitted == LastSubmitted(h)
    && (s.submitted != "" ==> !s.notified)
    && (s.mode == Manual ==> s.confirmed == LastConfirmed(h))
    && (s.mode == Auto && s.confirmed != "" ==> s.confirmed == LastConfirmed(h))
    && (s.mode == Without ==> s.submitted == "")
  }

  lemma TellsNext(s: State, h: seq<Event>, e: Event, t: State, k: seq<Event>)
    requires Tells(s, h) && (s.armed ==> s.mode == Auto)
    requires t == Next(s, e) && k == (if Emits(s, e).Some? then [] else h + [e])
    ensures Tells(t, k) && t.mode == s.mode
  {
    assert (h + [e])[..|h|] == h;
  }

  lemma SinceNext(mode: Mode, es: seq<Event>)
    requires es != []
    ensures var front, e := es[..|es| - 1], es[|es| - 1];
      && After(mode, es) == Next(After(mode, front), e)
      && Since(mode, es) == if Emits(After(mode, front), e).Some? then [] else Since(mode, front) + [e]
  {
  }

  lemma {:induction false} StateTells(mode: Mode, es: seq<Event>)
    ensures Tells(After(mode, es), Since(mode, es)) && After(mode, es).mode == mode
  {
    if es != [] {
      var front := es[..|es| - 1];
      StateTells(mode, front);
      TimerIsArmed(mode, front);
      SinceNext(mode, es);
      TellsNext(After(mode, front), Since(mode, front), es[|es| - 1], After(mode, es), Since(mode, es));
    }
  }

  lemma {:induction false} ConfirmedIsStanding(mode: Mode, es: seq<Event>)
    ensures After(mode, es).confirmed == Standing(mode, es)
  {
    if es != [] {
      var front := es[..|es| - 1];
      ConfirmedIsStanding(mode, front);
      TimerIsArmed(mode, front);
      StateTells(mode, front);
      SinceNext(mode, es);
    }
  }

  /** The state is exactly what happened: the last submission since the last
      emission, the confirmation that stands, and the timer that runs. In manual
      mode the confirmation is the last one not followed by a cancellation. */
  lemma StateIsHistory(mode: Mode, es: seq<Event>)
    ensures var s := After(mode, es);
      s.submitted == LastSubmitted(Since(mode, es)) && s.confirmed == Standing(mode, es)
        && s.armed == TimerRuns(mode, es)
    ensures mode == Manual ==> Standing(mode, es) == LastConfirmed(Since(mode, es))
    ensures mode == Auto && Standing(mode, es) != "" ==> Standing(mode, es) == LastConfirmed(Since(mode, es))
    ensures mode == Without ==> LastSubmitted(Since(mode, es)) == ""
  {
    StateTells(mode, es);
    ConfirmedIsStanding(mode, es);
    TimerIsArmed(mode, es);
  }

  /** The confirmer has notified exactly when something was emitted and nothing has
      been submitted since. */
  lemma {:induction false} NotifiedIff(mode: Mode, es: seq<Event>)
    ensures After(mode, es).notified <==> Emissions(mode, es) != [] && Submissions(Since(mode, es)) == []
  {
    if es != [] {
      var front, e := es[..|es| - 1], es[|es| - 1];
      NotifiedIff(mode, front);
      SinceNext(mode, es);
      assert (Since(mode, front) + [e])[..|Since(mode, front)|] == Since(mode, front);
    }
  }

  /** What the loop sees when it decides whether to emit: the events since the
      last emission, with the one just received. */
  function Seen(mode: Mode, es: seq<Event>): seq<Event>
    requires es != []
  {
    Since(mode, es[..|es| - 1]) + [es[|es| - 1]]
  }

  /** In manual mode a uuid is emitted exactly when it is the last submitted and
      the last confirmed since the last emission, with no cancellation after. */
  lemma ManualEmitsIff(es: seq<Event>, u: Uuid)
    requires es != []
    ensures Emission(Manual, es) == Some(u) <==>
      u != "" && LastSubmitted(Seen(Manual, es)) == u && LastConfirmed(Seen(Manual, es)) == u
  {
    var front, e := es[..|es| - 1], es[|es| - 1];
    StateTells(Manual, front);
    TimerIsArmed(Manual, front);
    var h := Seen(Manual, es);
    assert h[..|h| - 1] == Since(Manual, front) && h[|h| - 1] == e;
  }

  /** In every mode an emitted uuid is the last submitted one: a submission that
      is replaced before it is emitted is not emitted. */
  lemma EmitsLastSubmitted(mode: Mode, es: seq<Event>, u: Uuid)
    requires es != [] && Emission(mode, es) == Some(u)
    ensures u != "" && LastSubmitted(Seen(mode, es)) == u
  {
    var front, e := es[..|es| - 1], es[|es| - 1];
    StateTells(mode, front);
    var h := Seen(mode, es);
    assert h[..|h| - 1] == Since(mode, front) && h[|h| - 1] == e;
  }

  /** In auto mode an emission is due to a running timer or to a confirmation of
      the submitted uuid that no cancellation followed. */
  lemma AutoEmitsBecause(es: seq<Event>, u: Uuid)
    requires es != [] && Emission(Auto, es) == Some(u)
    ensures u != "" && LastSubmitted(Seen(Auto, es)) == u
    ensures (es[|es| - 1].Tick? && TimerRuns(Auto, es[..|es| - 1])) || LastConfirmed(Seen(Auto, es)) == u
  {
    EmitsLastSubmitted(Auto, es, u);
    var front, e := es[..|es| - 1], es[|es| - 1];
    StateTells(Auto, front);
    TimerIsArmed(Auto, front);
    var h := Seen(Auto, es);
    assert h[..|h| - 1] == Since(Auto, front) && h[|h| - 1] == e;
  }

  /** The confirmation that stands when the loop decides whether to emit. */
  function StandingSeen(mode: Mode, es: seq<Event>): Uuid
    requires es != []
  {
    match es[|es| - 1]
    case Confirm(u) => u
    case Cancel => ""
    case _ => Standing(mode, es[..|es| - 1])
  }

  /** In auto mode a uuid is emitted exactly when it is the last submitted since
      the last emission and either a running timer ticks or it is the confirmation
      that stands, which may have come before the submission. */
  lemma {:induction false} AutoEmitsIff(es: seq<Event>, u: Uuid)
    requires es != []
    ensures Emission(Auto, es) == Some(u) <==>
      u != "" && LastSubmitted(Seen(Auto, es)) == u
      && ((es[|es| - 1].Tick? && TimerRuns(Auto, es[..|es| - 1])) || StandingSeen(Auto, es) == u)
  {
    var front, e := es[..|es| - 1], es[|es| - 1];
    StateTells(Auto, front);
    ConfirmedIsStanding(Auto, front);
    TimerIsArmed(Auto, front);
    LastOfSeen(Auto, es);
    AutoEmitsStep(After(Auto, front), e, u);
  }

  lemma AutoEmitsStep(s: State, e: Event, u: Uuid)
    requires s.mode == Auto && (s.submitted != "" ==> !s.notified)
    ensures Emits(s, e) == Some(u) <==>
      && u != "" && (if e.Submit? then e.uuid else s.submitted) == u
      && ((e.Tick? && s.armed) || (if e.Confirm? then e.uuid else if e.Cancel? then "" else s.confirmed) == u)
  {
  }

  lemma {:induction false} LastOfSeen(mode: Mode, es: seq<Event>)
    requires es != []
    ensures var front, e := es[..|es| - 1], es[|es| - 1];
      LastSubmitted(Seen(mode, es)) == if e.Submit? then e.uuid else LastSubmitted(Since(mode, front))
  {
    var h := Seen(mode, es);
    assert h[..|h| - 1] == Since(mode, es[..|es| - 1]) && h[|h| - 1] == es[|es| - 1];
  }

  /** After a cancellation: neither a submission nor a confirmation of u. */
  ghost predicate Quiet(es: seq<Event>, n: nat, u: Uuid) {
    forall i :: n <= i < |es| ==> !es[i].Submit? && es[i] != Confirm(u)
  }

  lemma {:induction false} CancelledStaysSilent(es: seq<Event>, n: nat, u: Uuid)
    requires n < |es| && es[n] == Cancel && Quiet(es, n + 1, u) && u == After(Auto, es[..n]).submitted
    ensures Emission(Auto, es) == None
    ensures var s := After(Auto, es); !s.armed && s.submitted == u && (u != "" ==> s.confirmed != u)
    decreases |es|
  {
    var front := es[..|es| - 1];
    if n == |es| - 1 {
      assert es[..n] == front;
    } else {
      assert front[..n] == es[..n] && front[n] == es[n];
      CancelledStaysSilent(front, n, u);
    }
  }

  /** In auto mode, from a cancellation on nothing is emitted until something is
      submitted again or the pending uuid is confirmed. */
  lemma CancelHolds(es: seq<Event>, n: nat, m: nat)
    requires n < m <= |es| && es[n] == Cancel && Quiet(es[..m], n + 1, After(Auto, es[..n]).submitted)
    ensures Emissions(Auto, es[..m]) == Emissions(Auto, es[..n])
    decreases m
  {
    var run := es[..m];
    assert run[..n] == es[..n] && run[..m - 1] == es[..m - 1];
    CancelledStaysSilent(run, n, After(Auto, es[..n]).submitted);
    if m > n + 1 {
      assert forall i :: 0 <= i < m - 1 ==> es[..m - 1][i] == es[..m][i];
      CancelHolds(es, n, m - 1);
    }
  }

  // --------------------------------------------------- emissions in submissions

  /** at[i] is the position in b of entry i of a; the order is kept. */
  ghost predicate Embeds(a: seq<Uuid>, b: seq<Uuid>, at: seq<nat>) {
    && |at| == |a|
    && (forall i :: 0 <= i < |at| ==> at[i] < |b| && b[at[i]] == a[i])
    && (forall i, j :: 0 <= i < j < |at| ==> at[i] < at[j])
  }

  ghost predicate IsSubsequence(a: seq<Uuid>, b: seq<Uuid>) {
    exists at :: Embeds(a, b, at)
  }

  /** What is pending is the last submission, and no emission answers it yet. */
  ghost predicate Accounted(e: seq<Uuid>, s: seq<Uuid>, pending: Uuid, at: seq<nat>) {
    && Embeds(e, s, at)
    && (pending != "" ==> s != [] && s[|s| - 1] == pending && (at != [] ==> at[|at| - 1] < |s| - 1))
  }

  ghost predicate Answered(e: seq<Uuid>, s: seq<Uuid>, pending: Uuid) {
    exists at :: Accounted(e, s, pending, at)
  }

  /** Each emission answers a submission. */
  lemma {:induction false} AnsweredSubmissions(mode: Mode, es: seq<Event>)
    ensures Answered(Emissions(mode, es), Submissions(es), After(mode, es).submitted)
  {
    if es == [] {
      assert Accounted([], [], "", []);
    } else {
      var front, e := es[..|es| - 1], es[|es| - 1];
      AnsweredSubmissions(mode, front);
      var at :| Accounted(Emissions(mode, front), Submissions(front), After(mode, front).submitted, at);
      AnsweredNext(Emissions(mode, front), Submissions(front), After(mode, front), at, e);
    }
  }

  lemma AnsweredNext(es: seq<Uuid>, ss: seq<Uuid>, s: State, at: seq<nat>, e: Event)
    requires Accounted(es, ss, s.submitted, at)
    ensures Answered(WithEmission(es, Emits(s, e)), if e.Submit? then ss + [e.uuid] else ss, Next(s, e).submitted)
  {
    var all, pending := ss, s.submitted;
    if e.Submit? {
      AccountedSubmit(es, ss, s.submitted, at, e.uuid);
      all, pending := ss + [e.uuid], e.uuid;
    }
    if Emits(s, e).Some? {
      AccountedEmit(es, all, pending, at);
    } else {
      assert Accounted(es, all, Next(s, e).submitted, at);
    }
  }

  lemma AccountedSubmit(e: seq<Uuid>, s: seq<Uuid>, pending: Uuid, at: seq<nat>, u: Uuid)
    requires Accounted(e, s, pending, at)
    ensures Accounted(e, s + [u], u, at)
  {
  }

  lemma AccountedEmit(e: seq<Uuid>, s: seq<Uuid>, pending: Uuid, at: seq<nat>)
    requires Accounted(e, s, pending, at) && pending != ""
    ensures Accounted(e + [pending], s, "", at + [|s| - 1])
  {
  }

  /** Every emission answers a submission of its own, in the same order. */
  lemma EmissionsAreSubmissions(mode: Mode, es: seq<Event>)
    ensures IsSubsequence(Emissions(mode, es), Submissions(es))
  {
    AnsweredSubmissions(mode, es);
  }

  function NonEmpty(us: seq<Uuid>): seq<Uuid> {
    if us == [] then []
    else
      var before := NonEmpty(us[..|us| - 1]);
      if us[|us| - 1] != "" then before + [us[|us| - 1]] else before
  }

  /** Without confirmation, everything submitted is emitted at once. */
  lemma {:induction false} WithoutEmitsAll(es: seq<Event>)
    ensures Emissions(Without, es) == NonEmpty(Submissions(es))
  {
    if es != [] {
      var front, e := es[..|es| - 1], es[|es| - 1];
      WithoutEmitsAll(front);
      StateTells(Without, front);
      TimerIsArmed(Without, front);
      if e.Submit? {
        var s := Submissions(front);
        assert (s + [e.uuid])[..|s|] == s;
      }
    }
  }
}
