/** Progress, whatever decides how operations turn out. */
module PlaneProgress {
  import opened Plane
  import opened PlaneGuards
  import opened PlaneLocks
  import opened PlaneReplays

  /** Every request that gets as far as an answer can be given one. */
  ghost predicate AlwaysAnswers(g: Guards) {
    forall req :: Mutating(req) ==> CanAnswer(g, req)
  }

  /** A thread that can step can step as the guards allow: anything they decide may fail, and an answer there is. */
  lemma LawfulStepExists(c: Config, s: State, k: nat, g: Guards, base: nat) returns (o: Outcome)
    requires Configured(c) && LocksAgree(s) && CanStep(s, k) && Told(c, s.threads[k]) && AlwaysAnswers(g)
    ensures Enabled(s, Step(k, o)) && Lawful(g, base, s, Step(k, o))
  {
    var t := s.threads[k];
    var ins := t.code[0];
    assert ins in t.code;
    if ins.Do? && ins.op.Reply? && Mutating(t.req) {
      assert CanAnswer(g, t.req);
      var status, body :| status in Statuses(RouteFor(t.req)) && g.replies(t.req, status, body);
      o := Pass(status, body, 0, 0);
    } else if ins.Do? && (ins.op.Check? || ins.op.Look? || ins.op.Commit? || ins.op.Issue?) {
      o := Fail(500, false, 0, 0);
    } else {
      o := StepExists(s, k);
    }
  }

  /** Every reachable state with an unfinished request has a step to take, however the guards decide. */
  lemma NeverStuck(c: Config, s: State, run: seq<Label>, g: Guards) returns (lab: Label)
    requires Configured(c) && Initial(s) && IsRun(c, s, run) && Busy(After(c, s, run)) && AlwaysAnswers(g)
    ensures lab.Step? && Enabled(After(c, s, run), lab) && Lawful(g, |s.data.store|, After(c, s, run), lab)
  {
    LocksAgreeAlways(c, s, run);
    ToldAlways(c, s, run);
    var now := After(c, s, run);
    var i :| 0 <= i < |now.threads| && now.threads[i].code != [];
    var k := SomeoneCanRun(now, i);
    assert Told(c, now.threads[k]);
    var o := LawfulStepExists(c, now, k, g, |s.data.store|);
    lab := Step(k, o);
  }

  lemma OneLawfulStep(c: Config, s: State, run: seq<Label>, g: Guards) returns (lab: Label)
    requires Configured(c) && Initial(s) && IsRun(c, s, run) && Obeys(c, s, run, g)
    requires Busy(After(c, s, run)) && AlwaysAnswers(g)
    ensures lab.Step? && IsRun(c, s, run + [lab]) && Obeys(c, s, run + [lab], g)
    ensures Remaining(After(c, s, run + [lab]).threads) < Remaining(After(c, s, run).threads)
  {
    lab := NeverStuck(c, s, run, g);
    ObeysExtends(c, s, run, lab, g);
    LocksAgreeAlways(c, s, run);
    StepsUseUpWork(c, After(c, s, run), lab.i, lab.o);
  }

  /** From every state the guards let come about, all requests in flight can be finished as the guards allow. */
  lemma {:induction false} EverythingCanFinishLawfully(c: Config, s: State, run: seq<Label>, g: Guards)
      returns (whole: seq<Label>)
    requires Configured(c) && Initial(s) && IsRun(c, s, run) && Obeys(c, s, run, g) && AlwaysAnswers(g)
    ensures IsRun(c, s, whole) && Obeys(c, s, whole, g) && !Busy(After(c, s, whole))
    ensures run <= whole && forall k :: |run| <= k < |whole| ==> whole[k].Step?
    decreases Remaining(After(c, s, run).threads)
  {
    if Busy(After(c, s, run)) {
      var lab := OneLawfulStep(c, s, run, g);
      whole := EverythingCanFinishLawfully(c, s, run + [lab], g);
      assert whole[|run|] == (run + [lab])[|run|];
    } else {
      whole := run;
    }
  }
}
