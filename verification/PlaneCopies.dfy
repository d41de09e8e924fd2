/** When copies of one request, and nothing else, can put it on the register twice. */
module PlaneCopies {
  import opened Plane
  import opened PlaneGuards
  import opened PlanePrograms
  import opened PlaneContainment
  import opened PlaneIdempotency
  import opened PlaneSolo
  import opened PlaneRetries

  /** The request can append `n` entries in one go. */
  predicate Possible(req: Request, n: nat) {
    n > 0 && (ByIssuer(req) || n == 1)
  }

  /** The times two appends may happen at: any two, or, on a clock that does not go back, in order from the start. */
  predicate Readings(rising: bool, start: nat, t: nat, u: nat) {
    rising ==> start <= t <= u
  }

  /** The register permits the request at some time, and permits it again, once it is there, at some time. */
  ghost predicate Repeatable(c: Config, g: Guards, req: Request, start: nat, rising: bool)
    requires Mutating(req)
  {
    exists m: nat, n: nat, t: nat, u: nat ::
      && Readings(rising, start, t, u)
      && Possible(req, m) && g.permits([], req, m, t)
      && Possible(req, n) && g.permits(Times(ActOf(c, req), m), req, n, u)
  }

  /** Two requests of the run are on the register for it. */
  ghost predicate Twice(c: Config, now: State, req: Request)
    requires Mutating(req)
  {
    exists i: nat, j: nat ::
      && i != j
      && Entry(ActOf(c, req), By(i)) in now.data.store
      && Entry(ActOf(c, req), By(j)) in now.data.store
  }

  // ---------------------------------------------------------------------------
  // Only then
  // ---------------------------------------------------------------------------

  predicate NeverAppends(code: Code) {
    forall ins <- code :: !Appends(ins)
  }

  /** A copy of the request, writing at most once more, or a thread that never writes. */
  predicate CopyOrIdle(c: Config, req: Request, t: Thread)
    requires Mutating(req)
  {
    (t.req == req && WritesOnce(c, req, t.code)) || NeverAppends(t.code)
  }

  /** Nothing added; one copy's entries, which it will not add to; or the request is repeatable. */
  ghost predicate Shape(c: Config, s: State, now: State, req: Request, g: Guards, rising: bool)
    requires Mutating(req)
  {
    || now.data.store == s.data.store
    || (exists i: nat, m: nat, t: nat :: OneCopy(c, s, now, req, g, rising, i, m, t))
    || Repeatable(c, g, req, s.clock, rising)
  }

  /** Copy `i` has put its `m` entries there at time `t`. */
  ghost predicate OneCopy(c: Config, s: State, now: State, req: Request, g: Guards, rising: bool,
                          i: nat, m: nat, t: nat)
    requires Mutating(req)
  {
    && i < |now.threads| && NeverAppends(now.threads[i].code) && Possible(req, m) && g.permits([], req, m, t)
    && Readings(rising, s.clock, t, now.clock)
    && now.data.store == s.data.store + Copies(Entry(ActOf(c, req), By(i)), m)
  }

  ghost predicate CopiesSoFar(c: Config, s: State, now: State, req: Request, g: Guards, rising: bool)
    requires Mutating(req)
  {
    && (rising ==> s.clock <= now.clock) && Shape(c, s, now, req, g, rising)
    && forall i :: 0 <= i < |now.threads| ==> CopyOrIdle(c, req, now.threads[i])
  }

  lemma OpeningIsQuiet(ins: Instr)
    requires ins in OPENING
    ensures !Appends(ins) && ins != Do(Look(StoreLock))
  {
  }

  lemma OpeningThen(c: Config, req: Request, rest: Code)
    requires Mutating(req) && WritesOnce(c, req, rest)
    ensures WritesOnce(c, req, OPENING + rest)
  {
    forall ins <- OPENING ensures !Appends(ins) && ins != Do(Look(StoreLock)) { OpeningIsQuiet(ins); }
    WritesOnceWithin(c, req, OPENING, rest, []);
    assert OPENING + rest + [] == OPENING + rest;
  }

  lemma DoorWritesOnce(c: Config, t: Thread)
    requires AtTheDoor(c, t)
    ensures WritesOnce(c, t.req, t.code)
  {
    NoSecondLookup(c, t);
    BehindTheDoor(c, t);
    OpeningThen(c, t.req, t.code[4..]);
    assert t.code == t.code[..4] + t.code[4..];
  }

  lemma ArrivesAsCopy(c: Config, req: Request)
    requires Configured(c) && Mutating(req)
    ensures CopyOrIdle(c, req, Dispatch(c, req))
  {
    DispatchCases(c, req);
    LetInIsAtTheDoor(c, req);
    if LetIn(c, req) { DoorWritesOnce(c, Dispatch(c, req)); }
  }

  lemma StaysCopy(c: Config, s: State, i: nat, o: Outcome, req: Request)
    requires CanStep(s, i) && Mutating(req) && CopyOrIdle(c, req, s.threads[i])
    ensures CopyOrIdle(c, req, ThreadStep(c, s, i, o).threads[i])
  {
    var t := s.threads[i];
    GoesOnOrUnwinds(c, s, i, o);
    UnwindReleases(t.held);
    if !NeverAppends(t.code) { WritesOnceTail(c, req, t.code); }
  }

  lemma StaysSilent(c: Config, s: State, i: nat, o: Outcome)
    requires CanStep(s, i) && NeverAppends(s.threads[i].code[1..])
    ensures NeverAppends(ThreadStep(c, s, i, o).threads[i].code)
  {
    GoesOnOrUnwinds(c, s, i, o);
    UnwindReleases(s.threads[i].held);
  }

  /** How many entries the step adds, and that the guards let it. */
  function Adds(s: State, i: nat, o: Outcome): nat
    requires CanStep(s, i)
  {
    match s.threads[i].code[0]
    case Do(Commit(_)) => if Lands(o) then 1 else 0
    case Do(Issue(_)) => o.commits
    case _ => 0
  }

  lemma StepAdds(c: Config, s: State, i: nat, o: Outcome, req: Request, g: Guards, base: nat)
    requires CanStep(s, i) && Mutating(req) && CopyOrIdle(c, req, s.threads[i]) && Lawful(g, base, s, Step(i, o))
    ensures ThreadStep(c, s, i, o).data.store == s.data.store + Copies(Entry(ActOf(c, req), By(i)), Adds(s, i, o))
    ensures Adds(s, i, o) > 0 ==>
              && Appends(s.threads[i].code[0]) && s.threads[i].req == req && WritesOnce(c, req, s.threads[i].code)
              && Possible(req, Adds(s, i, o)) && g.permits(Since(base, s.data), req, Adds(s, i, o), s.clock)
  {
    var t := s.threads[i];
    assert t.code[0] in t.code;
    assert s.data.store + Copies(Entry(ActOf(c, req), By(i)), 0) == s.data.store;
    assert Copies(Entry(ActOf(c, req), By(i)), 1) == [Entry(ActOf(c, req), By(i))];
  }

  lemma FirstCopy(c: Config, s: State, now: State, i: nat, o: Outcome, req: Request, g: Guards, rising: bool)
    requires Enabled(now, Step(i, o)) && Mutating(req) && Phased(0, now.threads[i].code)
    requires CopyOrIdle(c, req, now.threads[i]) && Lawful(g, |s.data.store|, now, Step(i, o))
    requires now.data.store == s.data.store && Adds(now, i, o) > 0 && (rising ==> s.clock <= now.clock)
    ensures OneCopy(c, s, ThreadStep(c, now, i, o), req, g, rising, i, Adds(now, i, o), now.clock)
  {
    StepAdds(c, now, i, o, req, g, |s.data.store|);
    WriteIsLast(c, now.threads[i]);
    StaysSilent(c, now, i, o);
    NothingSince(now);
  }

  lemma SecondCopy(c: Config, s: State, now: State, i: nat, o: Outcome, req: Request, g: Guards, rising: bool,
                   k: nat, m: nat, t: nat)
    requires Enabled(now, Step(i, o)) && Mutating(req)
    requires CopyOrIdle(c, req, now.threads[i]) && Lawful(g, |s.data.store|, now, Step(i, o))
    requires OneCopy(c, s, now, req, g, rising, k, m, t) && Adds(now, i, o) > 0
    ensures Repeatable(c, g, req, s.clock, rising)
  {
    StepAdds(c, now, i, o, req, g, |s.data.store|);
    SinceGrows(|s.data.store|, s.data, now.data, Entry(ActOf(c, req), By(k)), m);
    NothingSince(s);
    assert [] + Times(ActOf(c, req), m) == Times(ActOf(c, req), m);
  }

  lemma QuietStep(c: Config, s: State, now: State, i: nat, o: Outcome, req: Request, g: Guards, rising: bool)
    requires Enabled(now, Step(i, o)) && Mutating(req) && CopyOrIdle(c, req, now.threads[i])
    requires Lawful(g, |s.data.store|, now, Step(i, o)) && Adds(now, i, o) == 0 && Shape(c, s, now, req, g, rising)
    ensures Shape(c, s, ThreadStep(c, now, i, o), req, g, rising)
  {
    var next := ThreadStep(c, now, i, o);
    StepAdds(c, now, i, o, req, g, |s.data.store|);
    assert next.data.store == now.data.store;
    if k: nat, m: nat, t: nat :| OneCopy(c, s, now, req, g, rising, k, m, t) {
      if k == i { StaysSilent(c, now, i, o); }
      assert OneCopy(c, s, next, req, g, rising, k, m, t);
    }
  }

  lemma StepKeepsShape(c: Config, s: State, now: State, i: nat, o: Outcome, req: Request, g: Guards, rising: bool)
    requires Enabled(now, Step(i, o)) && Mutating(req) && Phased(0, now.threads[i].code)
    requires CopyOrIdle(c, req, now.threads[i]) && Lawful(g, |s.data.store|, now, Step(i, o))
    requires Shape(c, s, now, req, g, rising) && (rising ==> s.clock <= now.clock)
    ensures Shape(c, s, ThreadStep(c, now, i, o), req, g, rising)
  {
    if Adds(now, i, o) == 0 {
      QuietStep(c, s, now, i, o, req, g, rising);
    } else if now.data.store == s.data.store {
      FirstCopy(c, s, now, i, o, req, g, rising);
    } else if k: nat, m: nat, t: nat :| OneCopy(c, s, now, req, g, rising, k, m, t) {
      SecondCopy(c, s, now, i, o, req, g, rising, k, m, t);
    }
  }

  lemma ArrivalKeepsShape(c: Config, s: State, now: State, arrived: Thread, req: Request, g: Guards, rising: bool)
    requires Mutating(req) && Shape(c, s, now, req, g, rising)
    ensures Shape(c, s, now.(threads := now.threads + [arrived]), req, g, rising)
  {
    var next := now.(threads := now.threads + [arrived]);
    if k: nat, m: nat, t: nat :| OneCopy(c, s, now, req, g, rising, k, m, t) {
      assert next.threads[k] == now.threads[k];
      assert OneCopy(c, s, next, req, g, rising, k, m, t);
    }
  }

  lemma ClockKeepsShape(c: Config, s: State, now: State, u: nat, req: Request, g: Guards, rising: bool)
    requires Mutating(req) && Shape(c, s, now, req, g, rising) && (rising ==> now.clock <= u)
    ensures Shape(c, s, now.(clock := u), req, g, rising)
  {
    if k: nat, m: nat, t: nat :| OneCopy(c, s, now, req, g, rising, k, m, t) {
      assert OneCopy(c, s, now.(clock := u), req, g, rising, k, m, t);
    }
  }

  lemma CopiesGoOn(c: Config, s: State, now: State, lab: Label, req: Request, g: Guards, rising: bool)
    requires Configured(c) && Enabled(now, lab) && Mutating(req) && AllHonest(now.threads)
    requires CopiesSoFar(c, s, now, req, g, rising)
    requires Lawful(g, |s.data.store|, now, lab) && (lab.Arrive? ==> lab.req == req)
    requires rising && lab.SetClock? ==> now.clock <= lab.t
    ensures CopiesSoFar(c, s, Apply(c, now, lab), req, g, rising)
  {
    match lab {
      case Arrive(_) =>
        ArrivesAsCopy(c, req);
        ArrivalKeepsShape(c, s, now, Dispatch(c, req), req, g, rising);
      case RefreshPass => ArrivalKeepsShape(c, s, now, Started(IDLE, RefreshCode()), req, g, rising);
      case SetClock(u) => ClockKeepsShape(c, s, now, u, req, g, rising);
      case Step(i, o) =>
        assert Honest(now.threads[i]);
        StepKeepsShape(c, s, now, i, o, req, g, rising);
        StaysCopy(c, now, i, o, req);
    }
  }

  lemma {:induction false} CopiesAlways(c: Config, s: State, run: seq<Label>, req: Request, g: Guards, rising: bool)
    requires Configured(c) && Initial(s) && IsRun(c, s, run) && Obeys(c, s, run, g) && Mutating(req)
    requires OnlyCopies(run, req) && (rising ==> ClockRises(c, s, run))
    ensures CopiesSoFar(c, s, After(c, s, run), req, g, rising)
    decreases |run|
  {
    if run != [] {
      var front, last := run[..|run| - 1], run[|run| - 1];
      assert last in run;
      CopiesAlways(c, s, front, req, g, rising);
      SoundAlways(c, s, front);
      CopiesGoOn(c, s, After(c, s, front), last, req, g, rising);
    }
  }

  lemma TwiceNeedsRepeatable(c: Config, s: State, now: State, req: Request, g: Guards, rising: bool)
    requires Initial(s) && Mutating(req) && Shape(c, s, now, req, g, rising) && Twice(c, now, req)
    ensures Repeatable(c, g, req, s.clock, rising)
  {
    var a := ActOf(c, req);
    var i: nat, j: nat :| i != j && Entry(a, By(i)) in now.data.store && Entry(a, By(j)) in now.data.store;
    assert Entry(a, By(i)) !in s.data.store && Entry(a, By(j)) !in s.data.store;
    if k: nat, m: nat, t: nat :| OneCopy(c, s, now, req, g, rising, k, m, t) {
      assert forall e :: e in now.data.store <==> e in s.data.store || e in Copies(Entry(a, By(k)), m);
    }
  }

  // ---------------------------------------------------------------------------
  // Exactly then
  // ---------------------------------------------------------------------------

  /** A run of copies of the request, as the guards allow, that puts it on the register twice. */
  ghost predicate DoublyApplied(c: Config, s: State, run: seq<Label>, req: Request, g: Guards, rising: bool)
    requires Configured(c) && Mutating(req)
  {
    && IsRun(c, s, run) && Obeys(c, s, run, g) && OnlyCopies(run, req) && (rising ==> ClockRises(c, s, run))
    && Twice(c, After(c, s, run), req)
  }

  lemma TwoCopiesAreTwice(c: Config, s: State, now: State, req: Request, m: nat, n: nat)
    requires Mutating(req) && m > 0 && n > 0
    requires var a := ActOf(c, req);
             now.data.store == s.data.store + Copies(Entry(a, By(0)), m) + Copies(Entry(a, By(1)), n)
    ensures Twice(c, now, req)
  {
    WrittenIsThere(s.data.store, Entry(ActOf(c, req), By(0)), m);
    WrittenIsThere(s.data.store + Copies(Entry(ActOf(c, req), By(0)), m), Entry(ActOf(c, req), By(1)), n);
  }

  lemma RepeatableRuns(c: Config, s: State, req: Request, status: nat, body: string, g: Guards, rising: bool)
      returns (run: seq<Label>)
    requires Configured(c) && Initial(s) && LetIn(c, req) && g.accepts(req)
    requires status in Statuses(RouteOf(req.verb, req.path)) && g.replies(req, status, body)
    requires Repeatable(c, g, req, s.clock, rising)
    ensures DoublyApplied(c, s, run, req, g, rising)
  {
    var m: nat, n: nat, t: nat, u: nat :|
      && Readings(rising, s.clock, t, u)
      && Possible(req, m) && g.permits([], req, m, t)
      && Possible(req, n) && g.permits(Times(ActOf(c, req), m), req, n, u);
    var first, second := Pass(status, body, m, 0), Pass(status, body, n, 0);
    run := OverlapCanApplyTwice(c, s, req, first, second, t, u, g);
    TwoCopiesAreTwice(c, s, After(c, s, run), req, m, n);
  }

  /**
   * For every request the plane lets in, its handler accepts and answers: copies of it alone, overlapping as they may
   * while the clock moves as it may, can put it on the register twice if and only if the register permits it at some
   * time and permits it again after itself at some time; if the clock does not go back, at that time or later.
   */
  lemma AppliedTwiceExactlyWhen(c: Config, s: State, req: Request, status: nat, body: string, g: Guards, rising: bool)
    requires Configured(c) && Initial(s) && LetIn(c, req) && g.accepts(req)
    requires status in Statuses(RouteOf(req.verb, req.path)) && g.replies(req, status, body)
    ensures (exists run :: DoublyApplied(c, s, run, req, g, rising)) <==> Repeatable(c, g, req, s.clock, rising)
  {
    if run :| DoublyApplied(c, s, run, req, g, rising) {
      CopiesAlways(c, s, run, req, g, rising);
      TwiceNeedsRepeatable(c, s, After(c, s, run), req, g, rising);
    }
    if Repeatable(c, g, req, s.clock, rising) {
      var run := RepeatableRuns(c, s, req, status, body, g, rising);
    }
  }
}
