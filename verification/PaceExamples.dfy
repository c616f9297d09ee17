/** Two runs of budget checks in which a budget comes to stand worse and nobody is told. */
module PaceExamples {
  import opened Wrappers
  import opened Pace
  import opened Alerts
  import opened PaceCheck
  import opened Announcements
  import opened PaceService

  const QUIET := Budget("b", false)
  const LOUD := Budget("b", true)
  const CRITICAL := [Alert("b", Critical, Open)]
  const LOWERED := [Alert("b", Warning, Open)]
  const CLOSED := [Alert("b", Critical, Resolved)]
  const RECHECK := Tx(LOUD, Revise(0, Critical, Critical), Decided)
  const ACKNOWLEDGE := Call(0, Acknowledged)

  lemma CountSnoc(k: Kind, steps: seq<Step>, step: Step, b: Id)
    ensures Count(k, steps + [step], b) == Count(k, steps, b) + One(k, Run(INIT, steps), step, b)
  {
    assert (steps + [step])[..|steps|] == steps;
  }

  lemma Finds(a: Alert, b: Id)
    ensures FindActive([a], b) == if ActiveFor(a, b) then Some(0) else None
  {
    assert [a][..0] == [];
  }

  lemma OpensCritical()
    ensures Run(INIT, CheckSteps([], "p", QUIET, Some(Critical), Commits)) == INIT.(alerts := CRITICAL)
  {
    assert FindActive([], "b") == None;
    CheckIsRun(INIT, "p", QUIET, Some(Critical), Commits);
  }

  lemma ChecksAgain()
    ensures Apply(INIT.(alerts := CRITICAL), Begin("p", LOUD, Some(Critical))) ==
      State(CRITICAL, [], map["p" := RECHECK], multiset{})
  {
    Finds(CRITICAL[0], "b");
  }

  lemma LowersBeside()
    ensures
      var s := State(CRITICAL, [], map["p" := RECHECK], multiset{});
      Run(s, CheckSteps(CRITICAL, "q", QUIET, Some(Warning), Commits)) == s.(alerts := LOWERED)
  {
    var s := State(CRITICAL, [], map["p" := RECHECK], multiset{});
    Finds(CRITICAL[0], "b");
    CheckIsRun(s, "q", QUIET, Some(Warning), Commits);
  }

  lemma RaisesBack()
    ensures
      var s := State(LOWERED, [], map["p" := RECHECK], multiset{});
      var s' := s.(txs := map["p" := RECHECK.(stage := Written)]);
      Apply(s, WriteAlert("p")) == s' && Is(Overtaken, s', Commit("p"), "b") && Apply(s', Commit("p")).requests == []
  {
    var s := State(LOWERED, [], map["p" := RECHECK], multiset{});
    var s' := s.(txs := map["p" := RECHECK.(stage := Written)]);
    assert Apply(s, WriteAlert("p")).txs == s'.txs;
    Finds(LOWERED[0], "b");
    Finds(CRITICAL[0], "b");
    assert Apply(s', Commit("p")).alerts == CRITICAL;
  }

  /**
    Two overlapping checks of one budget: the first reads a critical alert and
    finds it critical still, the second lowers it to a warning, the first then
    commits. The budget is back at critical and nobody is told.
   */
  lemma {:induction false} OvertakenExample() returns (steps: seq<Step>)
    ensures Count(Overtaken, steps, "b") > 0 && Run(INIT, steps).requests == []
  {
    var a := CheckSteps([], "p", QUIET, Some(Critical), Commits);
    var b := [Begin("p", LOUD, Some(Critical))];
    var c := CheckSteps(CRITICAL, "q", QUIET, Some(Warning), Commits);
    OpensCritical();
    ChecksAgain();
    LowersBeside();
    RaisesBack();
    RunAppend(INIT, a, b);
    RunOne(INIT.(alerts := CRITICAL), b[0]);
    RunAppend(INIT, a + b, c);
    RunSnoc(INIT, a + b + c, WriteAlert("p"));
    RunSnoc(INIT, a + b + c + [WriteAlert("p")], Commit("p"));
    CountSnoc(Overtaken, a + b + c + [WriteAlert("p")], Commit("p"), "b");
    steps := a + b + c + [WriteAlert("p")] + [Commit("p")];
  }

  lemma LooksUp()
    ensures Apply(INIT.(alerts := CRITICAL), LookUp(ACKNOWLEDGE)) == State(CRITICAL, [], map[], multiset{ACKNOWLEDGE})
  {
  }

  lemma ClosesBeside()
    ensures
      var s := State(CRITICAL, [], map[], multiset{ACKNOWLEDGE});
      Run(s, CheckSteps(CRITICAL, "p", QUIET, None, Commits)) == s.(alerts := CLOSED)
  {
    var s := State(CRITICAL, [], map[], multiset{ACKNOWLEDGE});
    Finds(CRITICAL[0], "b");
    CheckIsRun(s, "p", QUIET, None, Commits);
  }

  lemma Reactivates()
    ensures
      var s := State(CLOSED, [], map[], multiset{ACKNOWLEDGE});
      Is(Reactivation, s, Move(ACKNOWLEDGE), "b") && Apply(s, Move(ACKNOWLEDGE)).requests == []
  {
    var s := State(CLOSED, [], map[], multiset{ACKNOWLEDGE});
    Finds(CLOSED[0], "b");
    Finds(CLOSED[0].(status := Acknowledged), "b");
    assert Apply(s, Move(ACKNOWLEDGE)).alerts == [CLOSED[0].(status := Acknowledged)];
  }

  /** An acknowledgement looks an alert up, a check resolves it, the acknowledgement lands: active again, and silent. */
  lemma {:induction false} ReactivationExample() returns (steps: seq<Step>)
    ensures Count(Reactivation, steps, "b") > 0 && Run(INIT, steps).requests == []
  {
    var a := CheckSteps([], "p", QUIET, Some(Critical), Commits);
    var c := CheckSteps(CRITICAL, "p", QUIET, None, Commits);
    OpensCritical();
    LooksUp();
    ClosesBeside();
    Reactivates();
    RunSnoc(INIT, a, LookUp(ACKNOWLEDGE));
    RunAppend(INIT, a + [LookUp(ACKNOWLEDGE)], c);
    RunSnoc(INIT, a + [LookUp(ACKNOWLEDGE)] + c, Move(ACKNOWLEDGE));
    CountSnoc(Reactivation, a + [LookUp(ACKNOWLEDGE)] + c, Move(ACKNOWLEDGE), "b");
    steps := a + [LookUp(ACKNOWLEDGE)] + c + [Move(ACKNOWLEDGE)];
  }
}
