/** Switch inhibitors decide whether a submitted operation can be performed. */
module SwitchInhibitors {
  import opened Deployments

  type Inhibitors = map<string, string>

  datatype Change = Change(before: string, after: string)

  /** An inhibitor counts only when both systems declare it, with different values. */
  predicate Conflict(current: Inhibitors, next: Inhibitors, k: string) {
    k in current && k in next && current[k] != next[k]
  }

  ghost predicate Inhibited(current: Inhibitors, next: Inhibitors) {
    exists k :: Conflict(current, next, k)
  }

  method CompareSwitchInhibitors(current: Inhibitors, next: Inhibitors) returns (diff: map<string, Change>)
    ensures forall k :: k in diff <==> k in current && k in next && current[k] != next[k]
    ensures forall k :: k in diff ==> diff[k] == Change(current[k], next[k])
  {
    diff := map[];
    var todo := current.Keys;
    while todo != {}
      invariant todo <= current.Keys
      invariant forall k :: k in diff <==> k in current && k in next && k !in todo
      invariant forall k :: k in diff ==> diff[k] == Change(current[k], "")
    {
      var k :| k in todo;
      todo := todo - {k};
      if k in next {
        diff := diff[k := Change(current[k], "")];
      }
    }
    todo := next.Keys;
    while todo != {}
      invariant todo <= next.Keys
      invariant forall k :: k in diff <==> k in current && k in next && (k in todo || current[k] != next[k])
      invariant forall k :: k in diff ==> diff[k] == Change(current[k], if k in todo then "" else next[k])
    {
      var k :| k in todo;
      todo := todo - {k};
      if k in diff {
        if diff[k].before != next[k] {
          diff := diff[k := diff[k].(after := next[k])];
        } else {
          diff := diff - {k};
        }
      }
    }
  }

  /** What the submitted operation becomes when the systems conflict. */
  function Downgraded(op: Operation): Operation {
    match op
    case Test => Null
    case Switch => Boot
    case _ => op
  }

  method ComputeOperation(op: Operation, current: Inhibitors, next: Inhibitors) returns (computed: Operation)
    ensures op == Test ==> computed == if Inhibited(current, next) then Null else Test
    ensures op == Switch ==> computed == if Inhibited(current, next) then Boot else Switch
    ensures op != Test && op != Switch ==> computed == op
    ensures computed == if Inhibited(current, next) then Downgraded(op) else op
  {
    var diff := CompareSwitchInhibitors(current, next);
    assert |diff| != 0 <==> Inhibited(current, next) by {
      if |diff| != 0 {
        var k :| k in diff.Keys;
        assert Conflict(current, next, k);
      } else {
        assert diff.Keys == {};
      }
    }
    computed := op;
    if op == Test {
      if |diff| != 0 {
        computed := Null;
      }
    } else if op == Switch {
      if |diff| != 0 {
        computed := Boot;
      }
    }
  }

  /** The operation changes the running system at once. */
  predicate Activates(op: Operation) {
    op == Test || op == Switch
  }

  /** The operation changes what the machine boots next. */
  predicate SetsBoot(op: Operation) {
    op == Boot || op == Switch
  }

  /** A conflict costs an operation its effect on the running system and nothing
      else: one without such an effect stays what it is. */
  lemma DowngradedOnlyLosesActivation(op: Operation)
    ensures !Activates(Downgraded(op)) && (SetsBoot(Downgraded(op)) <==> SetsBoot(op))
    ensures !Activates(op) ==> Downgraded(op) == op
    ensures Activates(op) && !SetsBoot(op) ==> Downgraded(op) == Null
  {
  }

  ghost predicate Declares(m: Inhibitors, part: Inhibitors) {
    forall k :: k in part ==> k in m && m[k] == part[k]
  }

  /** Two systems inhibit the switch from one to the other exactly when there can be
      no third one that declares what both declare. */
  lemma InhibitedIff(current: Inhibitors, next: Inhibitors)
    ensures Inhibited(current, next) <==> !exists m :: Declares(m, current) && Declares(m, next)
  {
    if Inhibited(current, next) {
      var k :| Conflict(current, next, k);
      forall m | Declares(m, current) ensures !Declares(m, next) {
        assert m[k] == current[k] != next[k];
      }
    } else {
      forall k | k in current ensures (current + next)[k] == current[k] {
        assert !Conflict(current, next, k);
      }
      assert Declares(current + next, current) && Declares(current + next, next);
    }
  }
}
