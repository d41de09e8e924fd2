/** Failure part of the way: what a refused request may have left behind. */
module PlaneFailures {
  import opened Plane
  import opened PlaneGuards
  import opened PlaneLocks
  import opened PlanePrograms
  import opened PlaneContainment
  import opened PlaneIdempotency
  import opened PlaneSolo

  lemma StillAhead(code: Code, ins: Instr)
    requires ins in code && code[0] != ins
    ensures ins in code[1..]
  {
    assert code == [code[0]] + code[1..];
  }

  /** The thread runs on alone until the instruction is next. */
  lemma {:induction false} RunUpTo(c: Config, s: State, run: seq<Label>, i: nat, want: Outcome, from: seq<Entry>,
                                   ins: Instr, g: Guards)
      returns (whole: seq<Label>)
    requires Configured(c) && Initial(s) && IsRun(c, s, run) && Obeys(c, s, run, g)
    requires Unhindered(c, from, After(c, s, run), i, want) && |s.data.store| <= |from|
    requires Granted(g, Acts(from[|s.data.store|..]), After(c, s, run).clock, After(c, s, run).threads[i].req, want)
    requires ins in After(c, s, run).threads[i].code
    ensures IsRun(c, s, whole) && Obeys(c, s, whole, g)
    ensures OnlyMoved(After(c, s, run), After(c, s, whole), i) && Unhindered(c, from, After(c, s, whole), i, want)
    ensures After(c, s, whole).threads[i].code != [] && After(c, s, whole).threads[i].code[0] == ins
    decreases |After(c, s, run).threads[i].code|
  {
    var now := After(c, s, run);
    if now.threads[i].code[0] == ins {
      whole := run;
    } else {
      OneMorePass(c, s, run, i, want, from, g);
      var next := After(c, s, run + [Step(i, want)]);
      StillAhead(now.threads[i].code, ins);
      whole := RunUpTo(c, s, run + [Step(i, want)], i, want, from, ins, g);
      MovesCompose(now, next, After(c, s, whole), i);
    }
  }

  /** Thread `i` was turned away and has only to let go of what it holds; everything else is as in `now`. */
  ghost predicate Leaving(now: State, next: State, i: nat, a: Answer) {
    && |next.threads| == |now.threads| && i < |now.threads| && next.data == now.data
    && next.threads[i].req == now.threads[i].req && next.threads[i].answer == a
    && forall k :: 0 <= k < |now.threads| && k != i ==> next.threads[k] == now.threads[k]
  }

  lemma {:induction false} LetGo(c: Config, s: State, run: seq<Label>, i: nat, g: Guards) returns (whole: seq<Label>)
    requires Configured(c) && Initial(s) && IsRun(c, s, run) && Obeys(c, s, run, g)
    requires i < |After(c, s, run).threads| && forall ins <- After(c, s, run).threads[i].code :: ins.Release?
    ensures IsRun(c, s, whole) && Obeys(c, s, whole, g)
    ensures Leaving(After(c, s, run), After(c, s, whole), i, After(c, s, run).threads[i].answer)
    ensures After(c, s, whole).threads[i].code == []
    decreases |After(c, s, run).threads[i].code|
  {
    var now := After(c, s, run);
    var t := now.threads[i];
    if t.code == [] {
      whole := run;
    } else {
      var step := Step(i, Pass(0, "", 0, 0));
      assert t.code[0] in t.code && t.code == [t.code[0]] + t.code[1..];
      LocksAgreeAlways(c, s, run);
      assert Disciplined(t.held, t.code);
      ObeysExtends(c, s, run, step, g);
      whole := LetGo(c, s, run + [step], i, g);
    }
  }

  /** The operations after which a containing request can still be refused. */
  predicate Containing(op: Op, a: Act) {
    op == Record(a) || op == Publish(a)
  }

  lemma FailingStep(c: Config, s: State, i: nat, op: Op, a: Act, status: nat, landed: bool)
    requires CanStep(s, i) && s.threads[i].code[0] == Do(op) && Containing(op, a)
    ensures var o := Fail(status, landed, 0, 0);
            var s', e := ThreadStep(c, s, i, o), if landed then [Entry(a, By(i))] else [];
            && Enabled(s, Step(i, o))
            && s'.threads == s.threads[i := Stop(s.threads[i], Refused(status))] && s'.owner == s.owner
            && (op.Record? ==> s'.data == s.data.(evidence := s.data.evidence + e))
            && (op.Publish? ==> s'.data == s.data.(feed := s.data.feed + e))
  {
    assert s.data.evidence + [] == s.data.evidence && s.data.feed + [] == s.data.feed;
  }

  /** How often the request is on each log. */
  ghost predicate Tallies(d: Data, e: Entry, store: nat, evidence: nat, feed: nat) {
    multiset(d.store)[e] == store && multiset(d.evidence)[e] == evidence && multiset(d.feed)[e] == feed
  }

  /** About to record, a program has committed; about to publish, it has recorded too. */
  lemma BehindIt(code: Code, op: Op, a: Act)
    requires Phased(0, code) && code != [] && code[0] == Do(op) && Containing(op, a)
    ensures Do(Commit(a)) !in code && (op.Record? ==> OwesRow(code, a)) && (op.Publish? ==> OwesEntry(code, a))
  {
    assert code == [code[0]] + code[1..] && code[0] in code;
    if Do(Commit(a)) in code { HeadIsLast(code, Do(Commit(a))); }
    if op.Publish? && Do(Record(a)) in code { HeadIsLast(code, Do(Record(a))); }
  }

  lemma TalliesBefore(d: Data, i: nat, code: Code, op: Op, a: Act)
    requires Balanced(d, i, code, a) && multiset(d.store)[Entry(a, By(i))] == 1
    requires (op.Record? ==> OwesRow(code, a)) && (op.Publish? ==> OwesEntry(code, a)) && Containing(op, a)
    ensures Tallies(d, Entry(a, By(i)), 1, if op.Publish? then 1 else 0, 0)
  {
  }

  /** Just before it records, a request is in the register alone; just before it publishes, in the evidence too. */
  lemma SoFar(c: Config, s: State, now: State, i: nat, want: Outcome, op: Op, a: Act)
    requires Initial(s) && InOrder(now) && Unhindered(c, s.data.store, now, i, want) && Honest(now.threads[i])
    requires !ByIssuer(now.threads[i].req) && a == ActOf(c, now.threads[i].req) && Ordinary(a) && Containing(op, a)
    requires now.threads[i].code != [] && now.threads[i].code[0] == Do(op)
    ensures Tallies(now.data, Entry(a, By(i)), 1, if op.Publish? then 1 else 0, 0)
  {
    var t := now.threads[i];
    BehindIt(t.code, op, a);
    assert Writing(c, t.req) == Do(Commit(a)) && CountOf(t.req, want) == 1;
    OnceOnTop(s.data.store, now.data.store, Entry(a, By(i)));
    assert Balanced(now.data, i, CodeOf(now, i), a);
    TalliesBefore(now.data, i, t.code, op, a);
  }

  lemma OnceOnTop(before: seq<Entry>, after: seq<Entry>, e: Entry)
    requires after == before + Copies(e, 1) && e !in before
    ensures multiset(after)[e] == 1
  {
    assert Copies(e, 1) == [e];
  }

  lemma TalliesAfter(d: Data, d': Data, e: Entry, op: Op, landed: bool)
    requires Containing(op, e.act) && Tallies(d, e, 1, if op.Publish? then 1 else 0, 0)
    requires var more := if landed then [e] else [];
             d' == if op.Record? then d.(evidence := d.evidence + more) else d.(feed := d.feed + more)
    ensures Tallies(d', e, 1, if op.Publish? then 1 else One(landed), if op.Publish? then One(landed) else 0)
  {
  }

  lemma HasTheStep(c: Config, t: Thread, op: Op)
    requires AtTheDoor(c, t) && Containing(op, ActOf(c, t.req))
    requires if op.Record? then Recorded(ActOf(c, t.req)) else Listed(c, ActOf(c, t.req))
    ensures |t.code| >= 4 && Do(op) in t.code[4..] && !ByIssuer(t.req) && Ordinary(ActOf(c, t.req))
  {
    var r := RouteOf(t.req.verb, t.req.path);
    BehindIsRest(c, t);
    WorkHolds(c, t.req, r);
  }

  /** The request, alone, up to where the instruction is next. */
  lemma UpTo(c: Config, s: State, req: Request, want: Outcome, ins: Instr, g: Guards) returns (run: seq<Label>)
    requires Configured(c) && Initial(s) && LetIn(c, req) && Granted(g, [], s.clock, req, want) && ins in Rest(c, req)
    ensures IsRun(c, s, run) && Obeys(c, s, run, g)
    ensures var now := After(c, s, run);
            && |now.threads| == 1 && now.threads[0].req == req && now.clock == s.clock
            && now.threads[0].code != [] && now.threads[0].code[0] == ins
            && Unhindered(c, s.data.store, now, 0, want)
  {
    assert IsRun(c, s, []) && Obeys(c, s, [], g) && Live(s.data.cache, s.clock) == map[];
    ArrivesAtTheDoor(c, s, [], req, g);
    run := [] + [Arrive(req)];
    var door := After(c, s, run);
    BehindIsRest(c, door.threads[0]);
    var look := ComeIn(c, s, run, 0, want, door, g);
    NothingSince(s);
    run := RunUpTo(c, s, run + look, 0, want, s.data.store, ins, g);
  }

  /** The request up to where it is about to perform `op`. */
  lemma AboutTo(c: Config, s: State, req: Request, want: Outcome, op: Op, g: Guards) returns (run: seq<Label>)
    requires Configured(c) && Initial(s) && LetIn(c, req) && Granted(g, [], s.clock, req, want)
    requires Containing(op, ActOf(c, req)) && if op.Record? then Recorded(ActOf(c, req)) else Listed(c, ActOf(c, req))
    ensures IsRun(c, s, run) && Obeys(c, s, run, g)
    ensures var now := After(c, s, run);
            && |now.threads| == 1 && now.threads[0].req == req && now.threads[0].code != []
            && now.threads[0].code[0] == Do(op)
            && Tallies(now.data, Entry(ActOf(c, req), By(0)), 1, if op.Publish? then 1 else 0, 0)
  {
    LetInIsAtTheDoor(c, req);
    HasTheStep(c, Dispatch(c, req), op);
    BehindIsRest(c, Dispatch(c, req));
    run := UpTo(c, s, req, want, Do(op), g);
    SoundAlways(c, s, run);
    InOrderAlways(c, s, run);
    assert Honest(After(c, s, run).threads[0]);
    SoFar(c, s, After(c, s, run), 0, want, op, ActOf(c, req));
  }

  /**
   * Refused is not undone. Any quarantine, clearing or revocation that is let in, accepted and permitted can fail when
   * it comes to record or to publish, and is then refused with its earlier steps in place; the step that failed may
   * even have reached its log.
   */
  lemma RefusalCanLeaveSteps(c: Config, s: State, req: Request, want: Outcome, op: Op, status: nat, landed: bool,
                             g: Guards)
      returns (run: seq<Label>)
    requires Configured(c) && Initial(s) && LetIn(c, req) && Granted(g, [], s.clock, req, want)
    requires Containing(op, ActOf(c, req)) && if op.Record? then Recorded(ActOf(c, req)) else Listed(c, ActOf(c, req))
    ensures IsRun(c, s, run) && Obeys(c, s, run, g)
    ensures var now := After(c, s, run);
            && |now.threads| == 1 && now.threads[0].req == req && now.threads[0].code == []
            && now.threads[0].answer == Refused(status)
            && Tallies(now.data, Entry(ActOf(c, req), By(0)), 1, if op.Publish? then 1 else One(landed),
                       if op.Publish? then One(landed) else 0)
  {
    var front := AboutTo(c, s, req, want, op, g);
    var now := After(c, s, front);
    var o := Fail(status, landed, 0, 0);
    FailingStep(c, now, 0, op, ActOf(c, req), status, landed);
    ObeysExtends(c, s, front, Step(0, o), g);
    var next := After(c, s, front + [Step(0, o)]);
    TalliesAfter(now.data, next.data, Entry(ActOf(c, req), By(0)), op, landed);
    UnwindReleases(now.threads[0].held);
    run := LetGo(c, s, front + [Step(0, o)], 0, g);
  }

  // ---------------------------------------------------------------------------
  // The issuer
  // ---------------------------------------------------------------------------

  predicate IssueAhead(code: Code) {
    exists ins <- code :: ins.Do? && ins.op.Issue?
  }

  /** A thread with the issuer still ahead has left no evidence, nor has one that has not come. */
  ghost predicate NotYet(s: State) {
    forall e <- s.data.evidence :: e.maker.By? ==>
      e.maker.thread < |s.threads| && !IssueAhead(s.threads[e.maker.thread].code)
  }

  lemma IssueNotAfter(code: Code)
    requires Phased(0, code) && code != [] && code[0].Do? && (code[0].op.Issue? || code[0].op.Record?)
    ensures !IssueAhead(code[1..])
  {
    if ins :| ins in code[1..] && ins.Do? && ins.op.Issue? { HeadIsLast(code, ins); }
  }

  lemma EvidenceAfterStep(c: Config, s: State, i: nat, o: Outcome, e: Entry)
    requires CanStep(s, i) && e in ThreadStep(c, s, i, o).data.evidence && e !in s.data.evidence
    ensures var ins := s.threads[i].code[0]; ins.Do? && (ins.op.Issue? || ins.op.Record?) && e.maker == By(i)
  {
  }

  lemma AheadShrinks(c: Config, s: State, i: nat, o: Outcome)
    requires CanStep(s, i) && IssueAhead(ThreadStep(c, s, i, o).threads[i].code)
    ensures IssueAhead(s.threads[i].code) && IssueAhead(s.threads[i].code[1..])
  {
    var code := s.threads[i].code;
    GoesOnOrUnwinds(c, s, i, o);
    UnwindReleases(s.threads[i].held);
    assert code == [code[0]] + code[1..];
  }

  lemma StepStaysNotYet(c: Config, s: State, i: nat, o: Outcome)
    requires CanStep(s, i) && Phased(0, s.threads[i].code) && NotYet(s)
    ensures NotYet(ThreadStep(c, s, i, o))
  {
    var s' := ThreadStep(c, s, i, o);
    forall e <- s'.data.evidence | e.maker.By?
      ensures e.maker.thread < |s'.threads| && !IssueAhead(s'.threads[e.maker.thread].code)
    {
      if e !in s.data.evidence {
        EvidenceAfterStep(c, s, i, o, e);
        IssueNotAfter(s.threads[i].code);
      }
      if IssueAhead(s'.threads[i].code) { AheadShrinks(c, s, i, o); }
    }
  }

  lemma {:induction false} NotYetAlways(c: Config, s: State, run: seq<Label>)
    requires Configured(c) && Initial(s) && IsRun(c, s, run)
    ensures NotYet(After(c, s, run))
    decreases |run|
  {
    if run != [] {
      var front, last := run[..|run| - 1], run[|run| - 1];
      NotYetAlways(c, s, front);
      SoundAlways(c, s, front);
      if last.Step? {
        assert Honest(After(c, s, front).threads[last.i]);
        StepStaysNotYet(c, After(c, s, front), last.i, last.o);
      }
    }
  }

  lemma IssuerIsAhead(c: Config, req: Request)
    requires Mutating(req) && ByIssuer(req)
    ensures Do(Issue(ActOf(c, req))) in Rest(c, req)
  {
    RestWrites(c, req);
  }

  lemma FailingIssuer(c: Config, s: State, i: nat, a: Act, status: nat, m: nat, n: nat)
    requires CanStep(s, i) && s.threads[i].code[0] == Do(Issue(a))
    ensures var o := Fail(status, false, m, n);
            var s', e := ThreadStep(c, s, i, o), Entry(a, By(i));
            && Enabled(s, Step(i, o))
            && s'.threads == s.threads[i := Stop(s.threads[i], Refused(status))]
            && s'.data.store == s.data.store + Copies(e, m) && s'.data.evidence == s.data.evidence + Copies(e, n)
  {
  }

  /**
   * The issuer too: a connection request, approval or denial that is let in and accepted can be refused with any number
   * of entries the register permits and any number of evidence rows left behind.
   */
  lemma IssuerCanStopHalfway(c: Config, s: State, req: Request, want: Outcome, status: nat, m: nat, n: nat, g: Guards)
      returns (run: seq<Label>)
    requires Configured(c) && Initial(s) && LetIn(c, req) && ByIssuer(req) && Granted(g, [], s.clock, req, want)
    requires m > 0 ==> g.permits([], req, m, s.clock)
    ensures IsRun(c, s, run) && Obeys(c, s, run, g)
    ensures var now, e := After(c, s, run), Entry(ActOf(c, req), By(0));
            && |now.threads| == 1 && now.threads[0].req == req && now.threads[0].code == []
            && now.threads[0].answer == Refused(status)
            && now.data.store == s.data.store + Copies(e, m) && multiset(now.data.evidence)[e] == n
  {
    var a := ActOf(c, req);
    IssuerIsAhead(c, req);
    var front := UpTo(c, s, req, want, Do(Issue(a)), g);
    var now := After(c, s, front);
    NotYetAlways(c, s, front);
    NothingSince(s);
    assert IssueAhead(now.threads[0].code) && Entry(a, By(0)) !in now.data.evidence by {
      assert now.threads[0].code[0] in now.threads[0].code;
    }
    assert now.data.store == s.data.store by {
      assert Writing(c, req) == Do(Issue(a)) && now.threads[0].code[0] in now.threads[0].code;
    }
    var o := Fail(status, false, m, n);
    FailingIssuer(c, now, 0, a, status, m, n);
    assert Since(|s.data.store|, now.data) == [];
    ObeysExtends(c, s, front, Step(0, o), g);
    CopiesCount(now.data.evidence, Entry(a, By(0)), n);
    UnwindReleases(now.threads[0].held);
    run := LetGo(c, s, front + [Step(0, o)], 0, g);
  }

  lemma {:induction false} CopiesCount(log: seq<Entry>, e: Entry, n: nat)
    requires e !in log
    ensures multiset(log + Copies(e, n))[e] == n
    decreases n
  {
    if n == 0 {
      assert log + Copies(e, 0) == log;
    } else {
      CopiesCount(log, e, n - 1);
      assert log + Copies(e, n) == log + Copies(e, n - 1) + [e];
    }
  }
}
