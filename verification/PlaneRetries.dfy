/** Retries: the gap between clock readings when writers take turns, and what overlap does to it. */
module PlaneRetries {
  import opened Plane
  import opened PlaneGuards
  import opened PlaneLocks
  import opened PlanePrograms
  import opened PlaneContainment
  import opened PlaneIdempotency
  import opened PlaneSolo

  // ---------------------------------------------------------------------------
  // Writers that take turns
  // ---------------------------------------------------------------------------

  /** Mutating requests never overlap one another; reads, scrapes, acks and refreshes may overlap anything. */
  ghost predicate WritersTakeTurns(c: Config, s: State, run: seq<Label>)
    requires Configured(c) && IsRun(c, s, run)
    decreases |run|
  {
    run != [] ==>
      && WritersTakeTurns(c, s, run[..|run| - 1])
      && (run[|run| - 1].Arrive? && Mutating(run[|run| - 1].req) ==>
            forall t <- After(c, s, run[..|run| - 1]).threads :: Mutating(t.req) ==> t.code == [])
  }

  predicate WritersInTurn(threads: seq<Thread>) {
    forall i, j :: 0 <= i < j < |threads| && Mutating(threads[i].req) && Mutating(threads[j].req) ==>
      threads[i].code == []
  }

  predicate Stamped(t: Thread) {
    !Turned(t) && Do(Stamp) !in t.code
  }

  /** The reading of `later` is a lifetime past that of `earlier`, or its lookup will still find the record. */
  predicate WillKeepApart(d: Data, earlier: Thread, later: Thread, k: string) {
    || earlier.stamp + IDEMPOTENCY_TTL_SECS <= later.stamp
    || (Do(Lookup) in later.code && k in d.cache && earlier.stamp + IDEMPOTENCY_TTL_SECS <= d.cache[k].expiry)
  }

  ghost predicate StampsApart(s: State, k: string) {
    forall i, j :: 0 <= i < j < |s.threads| && KeyedOn(s.threads[i], k) && KeyedOn(s.threads[j], k)
      && s.threads[i].answer.Served? && Stamped(s.threads[j])
      ==> WillKeepApart(s.data, s.threads[i], s.threads[j], k)
  }

  /** A lookup that misses does so because the earlier record ran out before this reading. */
  lemma MissedMeansLater(d: Data, earlier: Thread, later: Thread, k: string)
    requires k !in Live(d.cache, later.stamp) && WillKeepApart(d, earlier, later, k)
    ensures earlier.stamp + IDEMPOTENCY_TTL_SECS <= later.stamp
  {
  }

  /** Reading the clock: the earlier record is still there, or the new reading is past it. */
  lemma StampKeepsApart(c: Config, s: State, j: nat, o: Outcome, a: nat, k: string)
    requires Enabled(s, Step(j, o)) && Honest(s.threads[j]) && s.threads[j].code[0] == Do(Stamp)
    requires a < |s.threads| && Covered(s.data, s.clock, s.threads[a], k)
    ensures WillKeepApart(ThreadStep(c, s, j, o).data, s.threads[a], ThreadStep(c, s, j, o).threads[j], k)
  {
    var t := s.threads[j];
    assert t.code == [t.code[0]] + t.code[1..];
    assert t.code[0] in t.code;
  }

  lemma StampStays(c: Config, s: State, j: nat, o: Outcome)
    requires CanStep(s, j) && s.threads[j].code[0] != Do(Stamp)
    ensures ThreadStep(c, s, j, o).threads[j].stamp == s.threads[j].stamp
  {
  }

  /** Any other instruction keeps what was kept. */
  lemma OtherwiseKeepsApart(c: Config, s: State, j: nat, o: Outcome, a: nat, k: string)
    requires Enabled(s, Step(j, o)) && Honest(s.threads[j]) && s.threads[j].code[0] != Do(Stamp)
    requires a < |s.threads| && KeyedOn(s.threads[j], k) && !Turned(ThreadStep(c, s, j, o).threads[j])
    requires WillKeepApart(s.data, s.threads[a], s.threads[j], k)
    ensures WillKeepApart(ThreadStep(c, s, j, o).data, s.threads[a], ThreadStep(c, s, j, o).threads[j], k)
  {
    var t := s.threads[j];
    StampStays(c, s, j, o);
    if s.threads[a].stamp + IDEMPOTENCY_TTL_SECS <= t.stamp { return; }
    assert t.code == [t.code[0]] + t.code[1..];
    if t.code[0] == Do(Lookup) {
      MissedMeansLater(s.data, s.threads[a], t, k);
    } else if t.code[0] == Do(Remember) {
      RememberHasBegun(t);
    } else if t.code[0].Do? {
      KeepsGoing(c, s, j, o);
    }
  }

  lemma OwnStampTurn(c: Config, s: State, j: nat, o: Outcome, a: nat, k: string)
    requires Enabled(s, Step(j, o)) && Spaced(s, k) && StampsApart(s, k) && a < j
    requires KeyedOn(s.threads[a], k) && KeyedOn(s.threads[j], k) && s.threads[a].answer.Served?
    requires Stamped(ThreadStep(c, s, j, o).threads[j])
    ensures WillKeepApart(ThreadStep(c, s, j, o).data, s.threads[a], ThreadStep(c, s, j, o).threads[j], k)
  {
    var t := s.threads[j];
    assert s.threads[a].code == [] && Honest(t);
    if t.code[0] == Do(Stamp) {
      FinishedIsInCache(s.threads[a]);
      assert Covered(s.data, s.clock, s.threads[a], k);
      StampKeepsApart(c, s, j, o, a, k);
    } else {
      WasStamped(c, s, j, o);
      OtherwiseKeepsApart(c, s, j, o, a, k);
    }
  }

  lemma WasStamped(c: Config, s: State, j: nat, o: Outcome)
    requires Enabled(s, Step(j, o)) && Honest(s.threads[j]) && s.threads[j].code[0] != Do(Stamp)
    requires Stamped(ThreadStep(c, s, j, o).threads[j])
    ensures Stamped(s.threads[j])
  {
    var t := s.threads[j];
    assert t.code == [t.code[0]] + t.code[1..];
    if t.code[0].Do? { KeepsGoing(c, s, j, o); }
  }

  lemma KeepsGoing(c: Config, s: State, j: nat, o: Outcome)
    requires Enabled(s, Step(j, o)) && Honest(s.threads[j]) && s.threads[j].code[0].Do?
    requires !Turned(ThreadStep(c, s, j, o).threads[j])
    ensures ThreadStep(c, s, j, o).threads[j].code == s.threads[j].code[1..] && !Turned(s.threads[j])
  {
    assert s.threads[j].code[0] in s.threads[j].code;
  }

  lemma OtherStampTurn(c: Config, s: State, m: nat, o: Outcome, a: nat, j: nat, k: string)
    requires Enabled(s, Step(m, o)) && Spaced(s, k) && StampsApart(s, k) && WritersInTurn(s.threads)
    requires a < j < |s.threads| && m != j
    requires KeyedOn(s.threads[a], k) && KeyedOn(s.threads[j], k)
    requires s.threads[a].answer.Served? && Stamped(s.threads[j])
    ensures WillKeepApart(ThreadStep(c, s, m, o).data, s.threads[a], s.threads[j], k)
  {
    var t := s.threads[m];
    assert t.code[0] in t.code;
    if m < j {
      assert !Mutating(t.req);
    } else if Mutating(t.req) {
      assert s.threads[j].code == [];
    }
  }

  lemma StepKeepsStampsApart(c: Config, s: State, m: nat, o: Outcome, k: string)
    requires Enabled(s, Step(m, o)) && Spaced(s, k) && StampsApart(s, k) && WritersInTurn(s.threads)
    ensures StampsApart(ThreadStep(c, s, m, o), k) && WritersInTurn(ThreadStep(c, s, m, o).threads)
  {
    var s' := ThreadStep(c, s, m, o);
    OwnTurn(c, s, m, o);
    assert s'.threads == s.threads[m := s'.threads[m]];
    forall a, j | 0 <= a < j < |s'.threads| && KeyedOn(s'.threads[a], k) && KeyedOn(s'.threads[j], k)
      && s'.threads[a].answer.Served? && Stamped(s'.threads[j])
      ensures WillKeepApart(s'.data, s'.threads[a], s'.threads[j], k)
    {
      assert s.threads[a].code == [] && a != m;
      if j == m { OwnStampTurn(c, s, j, o, a, k); } else { OtherStampTurn(c, s, m, o, a, j, k); }
    }
  }

  lemma ArrivesUnstamped(c: Config, req: Request)
    requires Configured(c) && Mutating(req)
    ensures !Stamped(Dispatch(c, req))
  {
    DispatchCases(c, req);
  }

  lemma ArrivalKeepsStampsApart(s: State, t: Thread, k: string)
    requires StampsApart(s, k) && WritersInTurn(s.threads)
    requires Mutating(t.req) ==> !Stamped(t) && forall u <- s.threads :: Mutating(u.req) ==> u.code == []
    ensures StampsApart(s.(threads := s.threads + [t]), k) && WritersInTurn(s.threads + [t])
  {
    assert forall a :: 0 <= a < |s.threads| ==> (s.threads + [t])[a] == s.threads[a] && s.threads[a] in s.threads;
  }

  lemma StampsStayApart(c: Config, s: State, lab: Label, k: string)
    requires Configured(c) && Enabled(s, lab) && Spaced(s, k) && StampsApart(s, k) && WritersInTurn(s.threads)
    requires lab.Arrive? && Mutating(lab.req) ==> forall t <- s.threads :: Mutating(t.req) ==> t.code == []
    ensures StampsApart(Apply(c, s, lab), k) && WritersInTurn(Apply(c, s, lab).threads)
  {
    match lab {
      case Arrive(req) =>
        DispatchIsHonest(c, req);
        if Mutating(req) { ArrivesUnstamped(c, req); }
        ArrivalKeepsStampsApart(s, Dispatch(c, req), k);
      case RefreshPass => ArrivalKeepsStampsApart(s, Started(IDLE, RefreshCode()), k);
      case SetClock(_) =>
      case Step(i, o) => StepKeepsStampsApart(c, s, i, o, k);
    }
  }

  lemma {:induction false} TurnsImplyOneAtATime(c: Config, s: State, run: seq<Label>, k: string)
    requires Configured(c) && IsRun(c, s, run) && WritersTakeTurns(c, s, run)
    ensures OneAtATime(c, s, run, k)
    decreases |run|
  {
    if run != [] { TurnsImplyOneAtATime(c, s, run[..|run| - 1], k); }
  }

  lemma {:induction false} StampsApartAlways(c: Config, s: State, run: seq<Label>, k: string)
    requires Configured(c) && Initial(s) && IsRun(c, s, run)
    requires ClockRises(c, s, run) && WritersTakeTurns(c, s, run)
    ensures StampsApart(After(c, s, run), k) && WritersInTurn(After(c, s, run).threads)
    decreases |run|
  {
    if run != [] {
      var front := run[..|run| - 1];
      StampsApartAlways(c, s, front, k);
      TurnsImplyOneAtATime(c, s, front, k);
      SpacedAlways(c, s, front, k);
      StampsStayApart(c, After(c, s, front), run[|run| - 1], k);
    }
  }

  /** When writers take turns and the clock does not go back, two successes under one key are dated a lifetime apart. */
  lemma RetriesApplyOncePerLifetime(c: Config, s: State, run: seq<Label>, k: string, i: nat, j: nat)
    requires Configured(c) && Initial(s) && IsRun(c, s, run)
    requires ClockRises(c, s, run) && WritersTakeTurns(c, s, run)
    requires i < j < |After(c, s, run).threads|
    requires var now := After(c, s, run);
             && KeyedOn(now.threads[i], k) && now.threads[i].answer.Served?
             && KeyedOn(now.threads[j], k) && now.threads[j].answer.Served?
    ensures var now := After(c, s, run);
            now.threads[i].stamp + 86_400 <= now.threads[j].stamp
  {
    StampsApartAlways(c, s, run, k);
    SoundAlways(c, s, run);
    var now := After(c, s, run);
    var t := now.threads[j];
    assert Honest(t);
    ServedHasBegun(t);
    assert Stamped(t) by {
      assert OnlyRemembers(t.code);
    }
    assert WillKeepApart(now.data, now.threads[i], t, k);
  }

  // ---------------------------------------------------------------------------
  // Overlap
  // ---------------------------------------------------------------------------

  /** Two copies of a request arrive one after the other. */
  lemma TwoArrive(c: Config, s: State, req: Request, g: Guards)
    requires Configured(c) && Initial(s)
    ensures IsRun(c, s, [Arrive(req), Arrive(req)]) && Obeys(c, s, [Arrive(req), Arrive(req)], g)
    ensures After(c, s, [Arrive(req), Arrive(req)]) == s.(threads := [Dispatch(c, req), Dispatch(c, req)])
  {
    assert IsRun(c, s, []) && Obeys(c, s, [], g);
    ObeysExtends(c, s, [], Arrive(req), g);
    assert [] + [Arrive(req)] == [Arrive(req)];
    ObeysExtends(c, s, [Arrive(req)], Arrive(req), g);
    assert [Arrive(req)] + [Arrive(req)] == [Arrive(req), Arrive(req)];
  }

  /** Nothing but copies of one request arrives; they overlap, and the clock moves, as it may. */
  predicate OnlyCopies(run: seq<Label>, req: Request) {
    forall lab <- run :: lab.Arrive? ==> lab.req == req
  }

  predicate ClockStands(labels: seq<Label>) {
    forall lab <- labels :: !lab.SetClock?
  }

  /** A clock that stands still does not go back. */
  lemma {:induction false} StandingRises(c: Config, s: State, run: seq<Label>, more: seq<Label>)
    requires Configured(c) && IsRun(c, s, run) && ClockRises(c, s, run)
    requires ClockStands(more) && IsRun(c, s, run + more)
    ensures ClockRises(c, s, run + more)
    decreases |more|
  {
    var whole := run + more;
    if more == [] {
      assert whole == run;
    } else {
      var front := more[..|more| - 1];
      assert whole[..|whole| - 1] == run + front && whole[|whole| - 1] == more[|more| - 1];
      assert more[|more| - 1] in more;
      StandingRises(c, s, run, front);
    }
  }

  lemma StepsAddNothing(run: seq<Label>, steps: seq<Label>, req: Request)
    requires OnlyCopies(run, req) && ClockStands(run) && OnlySteps(steps)
    ensures OnlyCopies(run + steps, req) && ClockStands(run + steps)
  {
  }

  /** One of two copies looks up a cache that holds nothing. */
  lemma OneComesIn(c: Config, s: State, run: seq<Label>, i: nat, want: Outcome, now: State, req: Request, g: Guards)
      returns (whole: seq<Label>)
    requires Configured(c) && IsRun(c, s, run) && After(c, s, run) == now && Obeys(c, s, run, g)
    requires i < |now.threads| && AtTheDoor(c, now.threads[i]) && now.owner == map[] && now.data.cache == map[]
    requires want.Pass? && want.status in Statuses(RouteOf(now.threads[i].req.verb, now.threads[i].req.path))
    requires OnlyCopies(run, req) && ClockStands(run)
    ensures IsRun(c, s, whole) && Obeys(c, s, whole, g) && OnlyCopies(whole, req) && ClockStands(whole)
    ensures |now.threads[i].code| >= 4
    ensures After(c, s, whole) == now.(threads := now.threads[i := Opened(now.threads[i], now.clock)])
  {
    assert Live(now.data.cache, now.clock) == map[];
    var look := ComeIn(c, s, run, i, want, now, g);
    StepsAddNothing(run, look, req);
    whole := run + look;
    assert now.data.(cache := map[]) == now.data;
  }

  /** Both copies past their lookups, with nothing remembered in between. */
  lemma BothComeIn(c: Config, s: State, req: Request, first: Outcome, second: Outcome, g: Guards)
      returns (run: seq<Label>)
    requires Configured(c) && Initial(s) && LetIn(c, req) && first.Pass? && second.Pass?
    requires var r := RouteOf(req.verb, req.path); first.status in Statuses(r) && second.status in Statuses(r)
    ensures IsRun(c, s, run) && Obeys(c, s, run, g) && AtTheDoor(c, Dispatch(c, req)) && Dispatch(c, req).req == req
    ensures |Dispatch(c, req).code| >= 4 && OnlyCopies(run, req) && ClockStands(run)
    ensures var t := Opened(Dispatch(c, req), s.clock); After(c, s, run) == s.(threads := [t, t])
  {
    var t := Dispatch(c, req);
    LetInIsAtTheDoor(c, req);
    TwoArrive(c, s, req, g);
    run := [Arrive(req), Arrive(req)];
    var both := s.(threads := [t, t]);
    run := OneComesIn(c, s, run, 0, first, both, req, g);
    var half := s.(threads := [Opened(t, s.clock), t]);
    assert both.threads[0 := Opened(t, s.clock)] == half.threads;
    run := OneComesIn(c, s, run, 1, second, half, req, g);
    assert half.threads[1 := Opened(t, s.clock)] == [Opened(t, s.clock), Opened(t, s.clock)];
  }

  /** The clock is set to `t`, and then thread `i` runs to its end alone. */
  lemma FinishAt(c: Config, s: State, run: seq<Label>, i: nat, want: Outcome, t: nat, g: Guards)
      returns (whole: seq<Label>)
    requires Configured(c) && Initial(s) && IsRun(c, s, run) && Obeys(c, s, run, g)
    requires var now := After(c, s, run);
             && |s.data.store| <= |now.data.store| && Unhindered(c, now.data.store, now, i, want)
             && Granted(g, Since(|s.data.store|, now.data), t, now.threads[i].req, want)
    ensures IsRun(c, s, whole) && Obeys(c, s, whole, g)
    ensures forall req :: OnlyCopies(run, req) ==> OnlyCopies(whole, req)
    ensures ClockRises(c, s, run) && After(c, s, run).clock <= t ==> ClockRises(c, s, whole)
    ensures OnlyMoved(After(c, s, run).(clock := t), After(c, s, whole), i)
    ensures Through(c, After(c, s, run).data.store, After(c, s, whole), i, want)
  {
    var now := After(c, s, run);
    var later := run + [SetClock(t)];
    ObeysExtends(c, s, run, SetClock(t), g);
    assert later[..|later| - 1] == run;
    var rest := FinishAlone(c, s, later, i, want, now.data.store, g);
    whole := later + rest;
    if ClockRises(c, s, run) && now.clock <= t { StandingRises(c, s, later, rest); }
  }

  /** Two copies of `req`, both answered, both on top of what the register held. */
  ghost predicate BothApplied(c: Config, s: State, now: State, req: Request, first: Outcome, second: Outcome)
    requires Mutating(req) && first.Pass? && second.Pass?
  {
    && |now.threads| == 2 && now.threads[0].req == req && now.threads[1].req == req
    && now.threads[0].answer == Served(first.status, first.body)
    && now.threads[1].answer == Served(second.status, second.body)
    && now.threads[0].stamp == now.threads[1].stamp == s.clock
    && now.data.store == s.data.store + Copies(Entry(ActOf(c, req), By(0)), CountOf(req, first))
                                      + Copies(Entry(ActOf(c, req), By(1)), CountOf(req, second))
  }

  /**
   * Overlap is what the turn-taking premise rules out. On every plane, for every mutating request it lets in that its
   * handler accepts, that the register permits at some time and permits again after itself at some time, there is a run
   * in which two copies under one key are both on the register and both answered in any ways the handler may. They
   * read the clock alike, and if the second time is no earlier than the first the clock never goes back.
   */
  lemma OverlapCanApplyTwice(c: Config, s: State, req: Request, first: Outcome, second: Outcome,
                             t: nat, u: nat, g: Guards)
      returns (run: seq<Label>)
    requires Configured(c) && Initial(s) && LetIn(c, req) && Granted(g, [], t, req, first)
    requires Granted(g, Times(ActOf(c, req), CountOf(req, first)), u, req, second)
    ensures IsRun(c, s, run) && Obeys(c, s, run, g) && OnlyCopies(run, req)
    ensures s.clock <= t <= u ==> ClockRises(c, s, run)
    ensures BothApplied(c, s, After(c, s, run), req, first, second)
  {
    var start := BothComeIn(c, s, req, first, second, g);
    assert [] + start == start && ClockRises(c, s, []);
    StandingRises(c, s, [], start);
    var n0 := After(c, s, start);
    OpenedIsOnCourse(c, n0.data, 0, Dispatch(c, req), s.clock, first);
    NothingSince(s);
    var half := FinishAt(c, s, start, 0, first, t, g);
    var n1 := After(c, s, half);
    SinceGrows(|s.data.store|, s.data, n1.data, Entry(ActOf(c, req), By(0)), CountOf(req, first));
    assert [] + Times(ActOf(c, req), CountOf(req, first)) == Times(ActOf(c, req), CountOf(req, first));
    OpenedIsOnCourse(c, n1.data, 1, Dispatch(c, req), s.clock, second);
    run := FinishAt(c, s, half, 1, second, u, g);
  }

  // ---------------------------------------------------------------------------
  // A clock that goes back
  // ---------------------------------------------------------------------------

  lemma {:induction false} StepsKeepTurns(c: Config, s: State, run: seq<Label>, steps: seq<Label>)
    requires Configured(c) && IsRun(c, s, run) && WritersTakeTurns(c, s, run)
    requires OnlySteps(steps) && IsRun(c, s, run + steps)
    ensures WritersTakeTurns(c, s, run + steps)
    decreases |steps|
  {
    var whole := run + steps;
    if steps == [] {
      assert whole == run;
    } else {
      var front := steps[..|steps| - 1];
      assert whole[..|whole| - 1] == run + front && whole[|whole| - 1] == steps[|steps| - 1];
      assert steps[|steps| - 1] in steps;
      StepsKeepTurns(c, s, run, front);
    }
  }

  lemma ArrivalKeepsTurns(c: Config, s: State, run: seq<Label>, req: Request)
    requires Configured(c) && IsRun(c, s, run) && WritersTakeTurns(c, s, run) && Quiet(After(c, s, run))
    ensures IsRun(c, s, run + [Arrive(req)]) && WritersTakeTurns(c, s, run + [Arrive(req)])
  {
    RunExtends(c, s, run, Arrive(req));
    var whole := run + [Arrive(req)];
    assert whole[..|whole| - 1] == run;
  }

  /** One more request in turn, and what it leaves. */
  lemma InTurnAgain(c: Config, s: State, run: seq<Label>, req: Request, want: Outcome, g: Guards)
      returns (whole: seq<Label>)
    requires Configured(c) && Initial(s) && IsRun(c, s, run) && WritersTakeTurns(c, s, run) && Obeys(c, s, run, g)
    requires Quiet(After(c, s, run)) && LetIn(c, req)
    requires req.key.value !in Live(After(c, s, run).data.cache, After(c, s, run).clock)
    requires |s.data.store| <= |After(c, s, run).data.store|
    requires Granted(g, Since(|s.data.store|, After(c, s, run).data), After(c, s, run).clock, req, want)
    ensures IsRun(c, s, whole) && WritersTakeTurns(c, s, whole) && Obeys(c, s, whole, g)
    ensures NewlyServed(c, After(c, s, run), After(c, s, whole), req, want)
  {
    var steps := ServeNew(c, s, run, req, want, g);
    ArrivalKeepsTurns(c, s, run, req);
    StepsKeepTurns(c, s, run + [Arrive(req)], steps);
    whole := run + [Arrive(req)] + steps;
  }

  lemma ClockIsSet(c: Config, s: State, run: seq<Label>, t: nat, g: Guards)
    requires Configured(c) && IsRun(c, s, run) && WritersTakeTurns(c, s, run) && Obeys(c, s, run, g)
    ensures IsRun(c, s, run + [SetClock(t)]) && WritersTakeTurns(c, s, run + [SetClock(t)])
    ensures Obeys(c, s, run + [SetClock(t)], g)
    ensures After(c, s, run + [SetClock(t)]) == After(c, s, run).(clock := t)
  {
    ObeysExtends(c, s, run, SetClock(t), g);
    var whole := run + [SetClock(t)];
    assert whole[..|whole| - 1] == run;
  }

  /** Served once at the first reading, and no longer remembered. */
  ghost predicate Forgotten(c: Config, now: State, req: Request, clock: nat) {
    && Mutating(req) && req.key.Some? && Quiet(now) && now.clock == clock
    && |now.threads| == 2 && now.threads[0].req == req && now.threads[0].answer.Served? && now.threads[0].stamp == clock
    && Entry(ActOf(c, req), By(0)) in now.data.store && req.key.value !in now.data.cache
  }

  lemma PrunedByAnother(c: Config, s: State, n1: State, n2: State, req: Request, other: Request,
                        want: Outcome, want': Outcome)
    requires Initial(s) && req.key != other.key && NewlyServed(c, s, n1, req, want) && CountOf(req, want) > 0
    requires NewlyServed(c, n1.(clock := s.clock + IDEMPOTENCY_TTL_SECS), n2, other, want')
    ensures Forgotten(c, n2.(clock := s.clock), req, s.clock)
  {
    assert n2.threads[0] == n2.threads[..1][0] == n1.threads[0];
    assert req.key.value !in Live(n1.data.cache, s.clock + IDEMPOTENCY_TTL_SECS);
    WrittenIsThere(s.data.store, Entry(ActOf(c, req), By(0)), CountOf(req, want));
  }

  lemma WrittenIsThere(log: seq<Entry>, e: Entry, n: nat)
    requires n > 0
    ensures e in log + Copies(e, n)
  {
    assert Copies(e, n)[0] in Copies(e, n);
  }

  lemma OtherKeyIsFree(c: Config, s: State, n1: State, req: Request, other: Request, want: Outcome, clock: nat)
    requires Initial(s) && other.key.Some? && req.key != other.key && NewlyServed(c, s, n1, req, want)
    ensures other.key.value !in Live(n1.data.cache, clock)
  {
    assert other.key.value !in Live(s.data.cache, s.clock);
  }

  /** The two acts of the first two rounds, as the register sees them. */
  function FirstRounds(c: Config, req: Request, other: Request, want: Outcome, want': Outcome): seq<Act>
    requires Mutating(req) && Mutating(other)
  {
    Times(ActOf(c, req), CountOf(req, want)) + Times(ActOf(c, other), CountOf(other, want'))
  }

  /** All three rounds are allowed: the request, another late in the day, and the request again. */
  ghost predicate RoundsGranted(c: Config, g: Guards, clock: nat, req: Request, other: Request,
                                want: Outcome, want': Outcome, again: Outcome)
    requires Mutating(req) && Mutating(other)
  {
    && Granted(g, [], clock, req, want)
    && Granted(g, Times(ActOf(c, req), CountOf(req, want)), clock + IDEMPOTENCY_TTL_SECS, other, want')
    && Granted(g, FirstRounds(c, req, other, want, want'), clock, req, again)
  }

  lemma Forgets(c: Config, s: State, req: Request, other: Request, want: Outcome, want': Outcome, g: Guards)
      returns (run: seq<Label>)
    requires Configured(c) && Initial(s) && LetIn(c, req) && LetIn(c, other) && req.key != other.key
    requires Granted(g, [], s.clock, req, want)
    requires Granted(g, Times(ActOf(c, req), CountOf(req, want)), s.clock + IDEMPOTENCY_TTL_SECS, other, want')
    ensures IsRun(c, s, run) && WritersTakeTurns(c, s, run) && Obeys(c, s, run, g)
    ensures Forgotten(c, After(c, s, run), req, s.clock) && |s.data.store| <= |After(c, s, run).data.store|
    ensures Since(|s.data.store|, After(c, s, run).data) == FirstRounds(c, req, other, want, want')
  {
    var late, base := s.clock + IDEMPOTENCY_TTL_SECS, |s.data.store|;
    NothingSince(s);
    var first := InTurnAgain(c, s, [], req, want, g);
    var n1 := After(c, s, first);
    SinceGrows(base, s.data, n1.data, Entry(ActOf(c, req), By(0)), CountOf(req, want));
    assert [] + Times(ActOf(c, req), CountOf(req, want)) == Times(ActOf(c, req), CountOf(req, want));
    ClockIsSet(c, s, first, late, g);
    OtherKeyIsFree(c, s, n1, req, other, want, late);
    var second := InTurnAgain(c, s, first + [SetClock(late)], other, want', g);
    var n2 := After(c, s, second);
    SinceGrows(base, n1.data, n2.data, Entry(ActOf(c, other), By(1)), CountOf(other, want'));
    PrunedByAnother(c, s, n1, n2, req, other, want, want');
    ClockIsSet(c, s, second, s.clock, g);
    run := second + [SetClock(s.clock)];
  }

  /** Thread 0 and thread 2 are one request, applied twice at one reading. */
  ghost predicate AppliedTwice(c: Config, now: State, req: Request, clock: nat) {
    && Mutating(req) && req.key.Some?
    && |now.threads| == 3 && now.threads[0].req == now.threads[2].req == req
    && now.threads[0].answer.Served? && now.threads[2].answer.Served?
    && now.threads[0].stamp == now.threads[2].stamp == now.threads[2].begun == clock
    && Entry(ActOf(c, req), By(0)) in now.data.store && Entry(ActOf(c, req), By(2)) in now.data.store
  }

  lemma AgainAfterForgetting(c: Config, n2: State, n3: State, req: Request, clock: nat, want: Outcome)
    requires Forgotten(c, n2, req, clock) && NewlyServed(c, n2, n3, req, want) && CountOf(req, want) > 0
    ensures AppliedTwice(c, n3, req, clock)
  {
    assert n3.threads[0] == n3.threads[..2][0] == n2.threads[0];
    WrittenIsThere(n2.data.store, Entry(ActOf(c, req), By(2)), CountOf(req, want));
  }

  lemma TwiceMeansTheClockFell(c: Config, s: State, run: seq<Label>, req: Request, clock: nat)
    requires Configured(c) && Initial(s) && IsRun(c, s, run) && WritersTakeTurns(c, s, run)
    requires AppliedTwice(c, After(c, s, run), req, clock)
    ensures !ClockRises(c, s, run)
  {
    if ClockRises(c, s, run) {
      RetriesApplyOncePerLifetime(c, s, run, req.key.value, 0, 2);
    }
  }

  /**
   * The clock premise is needed too. If the clock runs ahead by a lifetime, another key's lookup prunes the record,
   * and the clock comes back, then a request that the register permits again by then is applied twice at one reading,
   * although nothing ever overlaps.
   */
  lemma ClockGoingBackAppliesTwice(c: Config, s: State, req: Request, other: Request,
                                   want: Outcome, want': Outcome, again: Outcome, g: Guards)
      returns (run: seq<Label>)
    requires Configured(c) && Initial(s) && LetIn(c, req) && LetIn(c, other) && req.key != other.key
    requires RoundsGranted(c, g, s.clock, req, other, want, want', again)
    ensures IsRun(c, s, run) && WritersTakeTurns(c, s, run) && !ClockRises(c, s, run) && Obeys(c, s, run, g)
    ensures AppliedTwice(c, After(c, s, run), req, s.clock)
  {
    var front := Forgets(c, s, req, other, want, want', g);
    var n2 := After(c, s, front);
    run := InTurnAgain(c, s, front, req, again, g);
    AgainAfterForgetting(c, n2, After(c, s, run), req, s.clock, again);
    TwiceMeansTheClockFell(c, s, run, req, s.clock);
  }
}
