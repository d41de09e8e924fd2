/**
 * Containment over every interleaving and every failure point: a request cuts in the register,
 * then on the evidence chain, then on the deny-list, and never gets a later one without the earlier.
 */
module PlaneContainment {
  import opened Plane
  import opened PlanePrograms
  import opened Wrappers

  /** Acts appended outside the issuer, which writes its two logs in one piece. */
  predicate Ordinary(a: Act) {
    !a.Requested? && !a.Decided?
  }

  /** The request has committed and still has to record. */
  predicate OwesRow(code: Code, a: Act) {
    Do(Record(a)) in code && Do(Commit(a)) !in code
  }

  /** The request has recorded and still has to publish. */
  predicate OwesEntry(code: Code, a: Act) {
    Do(Publish(a)) in code && Do(Record(a)) !in code
  }

  function One(b: bool): nat {
    if b then 1 else 0
  }

  /** What thread `i` put on each log, plus what it still owes, never overtakes the log before it. */
  ghost predicate Balanced(d: Data, i: nat, code: Code, a: Act) {
    var e := Entry(a, By(i));
    && multiset(d.evidence)[e] + One(OwesRow(code, a)) <= multiset(d.store)[e]
    && multiset(d.feed)[e] + One(OwesEntry(code, a)) <= multiset(d.evidence)[e]
  }

  function CodeOf(s: State, i: nat): Code {
    if i < |s.threads| then s.threads[i].code else []
  }

  /** What is left of any program: in order, with the issuer kept to its own acts. */
  ghost predicate Orderly(code: Code) {
    && Phased(0, code)
    && (forall ins <- code :: ins.Do? && ins.op.Issue? ==> !Ordinary(ins.op.act))
  }

  ghost predicate InOrder(s: State) {
    && (forall i :: 0 <= i < |s.threads| ==> Orderly(s.threads[i].code))
    && (forall i: nat, a | Ordinary(a) :: Balanced(s.data, i, CodeOf(s, i), a))
  }

  // ---------------------------------------------------------------------------
  // One step
  // ---------------------------------------------------------------------------

  lemma {:induction false} PhasedTail(lo: nat, code: Code)
    requires Phased(lo, code) && code != []
    ensures Phased(lo, code[1..])
  {
    if Phase(code[0]) != 0 { LowerFloor(lo, Phase(code[0]), code[1..]); }
  }

  lemma GoesOnOrUnwinds(c: Config, s: State, i: nat, o: Outcome)
    requires CanStep(s, i)
    ensures var t, t' := s.threads[i], ThreadStep(c, s, i, o).threads[i];
            t'.code == t.code[1..] || t'.code == Unwind(t.held)
  {
  }

  lemma OrderlyTurn(c: Config, s: State, i: nat, o: Outcome)
    requires CanStep(s, i) && Orderly(s.threads[i].code)
    ensures Orderly(ThreadStep(c, s, i, o).threads[i].code)
  {
    var t := s.threads[i];
    GoesOnOrUnwinds(c, s, i, o);
    PhasedTail(0, t.code);
    UnwindReleases(t.held);
    Unphased(0, Unwind(t.held));
  }

  /** A program about to perform a phased operation performs nothing of that phase or before it again. */
  lemma HeadIsLast(code: Code, ins: Instr)
    requires Phased(0, code) && code != [] && Phase(code[0]) != 0 && ins in code[1..]
    ensures Phase(ins) == 0 || Phase(code[0]) < Phase(ins)
  {
    PhasesAbove(Phase(code[0]), code[1..], ins);
  }

  /** Refusing clears every debt, because only lock releases are left. */
  lemma StoppedOwesNothing(held: seq<Lock>, a: Act)
    ensures !OwesRow(Unwind(held), a) && !OwesEntry(Unwind(held), a)
  {
    UnwindReleases(held);
  }

  /** Performing the head moves a debt from one log to the next, and never creates one. */
  lemma DebtsMove(code: Code, a: Act)
    requires Phased(0, code) && code != []
    ensures One(OwesRow(code[1..], a)) + One(code[0] == Do(Record(a)))
            <= One(OwesRow(code, a)) + One(code[0] == Do(Commit(a)))
    ensures One(OwesEntry(code[1..], a)) + One(code[0] == Do(Publish(a)))
            <= One(OwesEntry(code, a)) + One(code[0] == Do(Record(a)))
  {
    var head, rest := code[0], code[1..];
    assert code == [head] + rest;
    if Phase(head) != 0 {
      if Do(Commit(a)) in rest { HeadIsLast(code, Do(Commit(a))); }
      if Do(Record(a)) in rest { HeadIsLast(code, Do(Record(a))); }
      if Do(Publish(a)) in rest { HeadIsLast(code, Do(Publish(a))); }
    }
  }

  lemma OwnStepBalances(c: Config, s: State, i: nat, o: Outcome, a: Act)
    requires CanStep(s, i) && Ordinary(a)
    requires Orderly(s.threads[i].code) && Balanced(s.data, i, s.threads[i].code, a)
    ensures Balanced(ThreadStep(c, s, i, o).data, i, ThreadStep(c, s, i, o).threads[i].code, a)
  {
    var t, s' := s.threads[i], ThreadStep(c, s, i, o);
    DebtsMove(t.code, a);
    if t.code[0].Do? {
      var op := t.code[0].op;
      assert t.code[0] in t.code;
      CountsAfter(c, s.data, i, t, op, o, Entry(a, By(i)));
      assert s'.threads[i] == Turn(c, s.data, s.clock, t, op, o);
      StoppedOwesNothing(t.held, a);
      TurnGoesOn(c, s.data, s.clock, t, op, o);
    }
  }

  /** A thread either goes on to its next instruction or unwinds; an append that did not land unwinds. */
  lemma TurnGoesOn(c: Config, d: Data, clock: nat, t: Thread, op: Op, o: Outcome)
    requires t.code != []
    ensures var t' := Turn(c, d, clock, t, op, o);
            t'.code == t.code[1..] || t'.code == Unwind(t.held)
    ensures (op.Commit? || op.Record? || op.Publish?) && !Lands(o) ==>
              Turn(c, d, clock, t, op, o).code == Unwind(t.held)
  {
  }

  /** How an operation moves the three counts of one entry. */
  lemma CountsAfter(c: Config, d: Data, i: nat, t: Thread, op: Op, o: Outcome, e: Entry)
    requires op.Issue? ==> !Ordinary(op.act)
    requires Ordinary(e.act)
    ensures var d' := Effect(c, d, i, t, op, o);
            var mine := e.maker == By(i) && Lands(o);
            && multiset(d'.store)[e] == multiset(d.store)[e] + One(mine && op == Commit(e.act))
            && multiset(d'.evidence)[e] == multiset(d.evidence)[e] + One(mine && op == Record(e.act))
            && multiset(d'.feed)[e] == multiset(d.feed)[e] + One(mine && op == Publish(e.act))
  {
    if op.Issue? {
      NoneOfAnother(Entry(op.act, By(i)), o.commits, e);
      NoneOfAnother(Entry(op.act, By(i)), o.rows, e);
    }
  }

  lemma NoneOfAnother(x: Entry, n: nat, e: Entry)
    requires x != e
    ensures multiset(Copies(x, n))[e] == 0
  {
    assert e !in Copies(x, n);
  }

  lemma OtherStepBalances(c: Config, s: State, i: nat, o: Outcome, j: nat, a: Act)
    requires CanStep(s, i) && Ordinary(a) && j != i
    requires Orderly(s.threads[i].code) && Balanced(s.data, j, CodeOf(s, j), a)
    ensures Balanced(ThreadStep(c, s, i, o).data, j, CodeOf(ThreadStep(c, s, i, o), j), a)
  {
    var t := s.threads[i];
    if t.code[0].Do? {
      assert t.code[0] in t.code;
      CountsAfter(c, s.data, i, t, t.code[0].op, o, Entry(a, By(j)));
    }
  }

  lemma StepKeepsOrder(c: Config, s: State, i: nat, o: Outcome)
    requires CanStep(s, i) && InOrder(s)
    ensures InOrder(ThreadStep(c, s, i, o))
  {
    var s' := ThreadStep(c, s, i, o);
    OrderlyTurn(c, s, i, o);
    forall j: nat, a | Ordinary(a) ensures Balanced(s'.data, j, CodeOf(s', j), a) {
      assert Balanced(s.data, j, CodeOf(s, j), a);
      if j == i { OwnStepBalances(c, s, i, o, a); } else { OtherStepBalances(c, s, i, o, j, a); }
    }
  }

  // ---------------------------------------------------------------------------
  // Arrivals
  // ---------------------------------------------------------------------------

  /** A fresh program owes nothing: whoever publishes records, whoever records commits. */
  ghost predicate Fresh(code: Code) {
    && Orderly(code)
    && (forall a :: !OwesRow(code, a) && !OwesEntry(code, a))
  }

  lemma ArrivalKeepsOrder(s: State, t: Thread)
    requires InOrder(s) && Fresh(t.code)
    ensures InOrder(s.(threads := s.threads + [t]))
  {
    var s' := s.(threads := s.threads + [t]);
    forall j: nat, a | Ordinary(a) ensures Balanced(s'.data, j, CodeOf(s', j), a) {
      assert Balanced(s.data, j, CodeOf(s, j), a);
      if j == |s.threads| { assert CodeOf(s', j) == t.code && CodeOf(s, j) == []; }
    }
  }

  /** A program without appends is fresh. */
  lemma QuietIsFresh(code: Code)
    requires Phased(0, code)
    requires forall ins <- code :: ins.Do? ==> !ins.op.Record? && !ins.op.Publish? && !ins.op.Issue?
    ensures Fresh(code)
  {
  }

  lemma WorkIsFresh(c: Config, req: Request, r: Route)
    requires Mutates(r)
    ensures Fresh(RouteCode(c, req, r))
  {
    var code, work := RouteCode(c, req, r), Work(c, req, r);
    RouteCodePhased(c, req, r);
    forall ins <- code ensures ins.Do? && ins.op.Issue? ==> !Ordinary(ins.op.act) {
      if ins in work { WorkOps(c, req, r, ins); }
    }
    forall a ensures !OwesRow(code, a) && !OwesEntry(code, a) {
      if Do(Record(a)) in code {
        assert Do(Record(a)) in work;
        WorkOps(c, req, r, Do(Record(a)));
      }
      if Do(Publish(a)) in code {
        assert Do(Publish(a)) in work;
        WorkOps(c, req, r, Do(Publish(a)));
      }
      WorkCommits(c, req, r, a);
    }
  }

  lemma WorkCommits(c: Config, req: Request, r: Route, a: Act)
    requires Mutates(r)
    ensures Do(Record(a)) in Work(c, req, r) ==> Do(Commit(a)) in Work(c, req, r)
    ensures Do(Publish(a)) in Work(c, req, r) ==> Do(Record(a)) in Work(c, req, r)
  {
  }

  lemma ReadsAreQuiet(c: Config, req: Request, r: Route, ins: Instr)
    requires RoleFor(r).Some? && !Mutates(r) && ins in RouteCode(c, req, r)
    ensures ins.Do? ==> ins.op.Check? || ins.op.Look? || ins.op.Acknowledge? || ins.op.Reply?
    ensures ins.Do? && ins.op.Acknowledge? ==> r.AckSet?
  {
  }

  lemma MetricsAreQuiet(hasFeed: bool, ins: Instr)
    requires ins in MetricsCode(hasFeed)
    ensures ins.Do? ==> ins.op.Look? || ins.op.Reply?
  {
  }

  lemma DispatchIsFresh(c: Config, req: Request)
    requires Configured(c)
    ensures Fresh(Dispatch(c, req).code)
  {
    DispatchCases(c, req);
    DispatchPhased(c, req);
    var code, r := Dispatch(c, req).code, RouteOf(req.verb, req.path);
    if code != [] && Mutates(r) {
      WorkIsFresh(c, req, r);
    } else {
      forall ins <- code ensures ins.Do? ==> !ins.op.Record? && !ins.op.Publish? && !ins.op.Issue? {
        if code == MetricsCode(c.hasFeed) {
          MetricsAreQuiet(c.hasFeed, ins);
        } else if code != [Do(Check), Do(Reply({200}))] {
          ReadsAreQuiet(c, req, r, ins);
        }
      }
      QuietIsFresh(code);
    }
  }

  lemma OrderStays(c: Config, s: State, lab: Label)
    requires Configured(c) && Enabled(s, lab) && InOrder(s)
    ensures InOrder(Apply(c, s, lab))
  {
    match lab {
      case Arrive(req) =>
        DispatchIsFresh(c, req);
        ArrivalKeepsOrder(s, Dispatch(c, req));
      case RefreshPass =>
        Unphased(0, RefreshCode());
        QuietIsFresh(RefreshCode());
        ArrivalKeepsOrder(s, Started(IDLE, RefreshCode()));
      case SetClock(_) =>
        forall j: nat, a | Ordinary(a) ensures Balanced(Apply(c, s, lab).data, j, CodeOf(Apply(c, s, lab), j), a) {
          assert Balanced(s.data, j, CodeOf(s, j), a);
        }
      case Step(i, o) => StepKeepsOrder(c, s, i, o);
    }
  }

  lemma InitiallyInOrder(s: State)
    requires Initial(s)
    ensures InOrder(s)
  {
    forall i: nat, a | Ordinary(a) ensures Balanced(s.data, i, CodeOf(s, i), a) {
      var e := Entry(a, By(i));
      assert e !in s.data.store && e !in s.data.evidence && e !in s.data.feed;
    }
  }

  lemma {:induction false} InOrderAlways(c: Config, s: State, run: seq<Label>)
    requires Configured(c) && Initial(s) && IsRun(c, s, run)
    ensures InOrder(After(c, s, run))
    decreases |run|
  {
    if run == [] {
      InitiallyInOrder(s);
    } else {
      InOrderAlways(c, s, run[..|run| - 1]);
      OrderStays(c, After(c, s, run[..|run| - 1]), run[|run| - 1]);
    }
  }

  // ---------------------------------------------------------------------------
  // The theorems
  // ---------------------------------------------------------------------------

  /**
   * Whatever interleaving and whatever failures: each deny-list entry of this run has an evidence row,
   * and each evidence row a commit, made by the same request for the same subject.
   */
  lemma EachStepHadTheOneBefore(c: Config, s: State, run: seq<Label>, i: nat, a: Act)
    requires Configured(c) && Initial(s) && IsRun(c, s, run) && Ordinary(a)
    ensures var d, e := After(c, s, run).data, Entry(a, By(i));
            multiset(d.feed)[e] <= multiset(d.evidence)[e] <= multiset(d.store)[e]
  {
    InOrderAlways(c, s, run);
    var now := After(c, s, run);
    assert Balanced(now.data, i, CodeOf(now, i), a);
  }

  /** How many entries a log holds for one subject. */
  function Tally(log: seq<Entry>, a: Act): nat {
    if log == [] then 0 else Tally(log[..|log| - 1], a) + One(log[|log| - 1].act == a)
  }

  /** Who made them. */
  ghost function Makers(log: seq<Entry>, a: Act): multiset<Maker> {
    if log == [] then multiset{}
    else Makers(log[..|log| - 1], a) + if log[|log| - 1].act == a then multiset{log[|log| - 1].maker} else multiset{}
  }

  lemma {:induction false} MakersCount(log: seq<Entry>, a: Act)
    ensures |Makers(log, a)| == Tally(log, a)
    ensures forall m :: Makers(log, a)[m] == multiset(log)[Entry(a, m)]
    decreases |log|
  {
    if log != [] {
      var front, last := log[..|log| - 1], log[|log| - 1];
      MakersCount(front, a);
      assert log == front + [last];
      assert multiset(log) == multiset(front) + multiset{last};
      forall m ensures Makers(log, a)[m] == multiset(log)[Entry(a, m)] {
        assert Makers(front, a)[m] == multiset(front)[Entry(a, m)];
        assert (last == Entry(a, m)) == (last.act == a && last.maker == m);
      }
    }
  }

  /** Entry by entry no more, then in all no more. */
  lemma TallyFollows(fewer: seq<Entry>, more: seq<Entry>, a: Act)
    requires forall m :: multiset(fewer)[Entry(a, m)] <= multiset(more)[Entry(a, m)]
    ensures Tally(fewer, a) <= Tally(more, a)
  {
    MakersCount(fewer, a);
    MakersCount(more, a);
    var p, q := Makers(fewer, a), Makers(more, a);
    assert forall m :: p[m] <= q[m];
    assert q == p + (q - p);
  }

  /** The ordering as an operator counts it, for one party or one connection. */
  ghost predicate Ranked(d: Data, a: Act) {
    Tally(d.feed, a) <= Tally(d.evidence, a) <= Tally(d.store, a)
  }

  /** History before the run that already had its steps in order. */
  ghost predicate CleanHistory(s: State, a: Act) {
    multiset(s.data.feed)[Entry(a, Prior)] <= multiset(s.data.evidence)[Entry(a, Prior)]
      <= multiset(s.data.store)[Entry(a, Prior)]
  }

  /** As many entries of one kind on each log. */
  predicate SameCounts(d: Data, d': Data, e: Entry) {
    && multiset(d'.store)[e] == multiset(d.store)[e]
    && multiset(d'.evidence)[e] == multiset(d.evidence)[e]
    && multiset(d'.feed)[e] == multiset(d.feed)[e]
  }

  lemma PriorStep(c: Config, now: State, i: nat, o: Outcome, a: Act)
    requires CanStep(now, i) && Orderly(now.threads[i].code) && Ordinary(a)
    ensures SameCounts(now.data, ThreadStep(c, now, i, o).data, Entry(a, Prior))
  {
    var t := now.threads[i];
    if t.code[0].Do? {
      assert t.code[0] in t.code;
      CountsAfter(c, now.data, i, t, t.code[0].op, o, Entry(a, Prior));
    }
  }

  lemma {:induction false} PriorIsUntouched(c: Config, s: State, run: seq<Label>, a: Act)
    requires Configured(c) && Initial(s) && IsRun(c, s, run) && Ordinary(a)
    ensures SameCounts(s.data, After(c, s, run).data, Entry(a, Prior))
    decreases |run|
  {
    if run != [] {
      var front, last := run[..|run| - 1], run[|run| - 1];
      PriorIsUntouched(c, s, front, a);
      InOrderAlways(c, s, front);
      if last.Step? { PriorStep(c, After(c, s, front), last.i, last.o, a); }
    }
  }

  /** For each party and each connection, in every reachable state: entries, at most rows, at most commits. */
  lemma ContainmentIsOrdered(c: Config, s: State, run: seq<Label>, a: Act)
    requires Configured(c) && Initial(s) && IsRun(c, s, run) && Ordinary(a) && CleanHistory(s, a)
    ensures Ranked(After(c, s, run).data, a)
  {
    var d := After(c, s, run).data;
    forall m
      ensures multiset(d.feed)[Entry(a, m)] <= multiset(d.evidence)[Entry(a, m)] <= multiset(d.store)[Entry(a, m)]
    {
      match m {
        case Prior => PriorIsUntouched(c, s, run, a);
        case By(i) => EachStepHadTheOneBefore(c, s, run, i, a);
      }
    }
    TallyFollows(d.feed, d.evidence, a);
    TallyFollows(d.evidence, d.store, a);
  }

  /** No step takes anything off a log: clearing a quarantine leaves its deny-list entry standing. */
  lemma LogsOnlyGrow(c: Config, s: State, lab: Label)
    requires Configured(c) && Enabled(s, lab)
    ensures var d, d' := s.data, Apply(c, s, lab).data;
            d.store <= d'.store && d.evidence <= d'.evidence && d.feed <= d'.feed
  {
  }

  lemma {:induction false} LogsOnlyGrowAlways(c: Config, s: State, run: seq<Label>, n: nat)
    requires Configured(c) && IsRun(c, s, run) && n <= |run| && IsRun(c, s, run[..n])
    ensures var d, d' := After(c, s, run[..n]).data, After(c, s, run).data;
            d.store <= d'.store && d.evidence <= d'.evidence && d.feed <= d'.feed
    decreases |run|
  {
    if n == |run| {
      assert run[..n] == run;
    } else {
      var front := run[..|run| - 1];
      assert front[..n] == run[..n];
      LogsOnlyGrowAlways(c, s, front, n);
      LogsOnlyGrow(c, After(c, s, front), run[|run| - 1]);
    }
  }

  // ---------------------------------------------------------------------------
  // What a 202 means
  // ---------------------------------------------------------------------------

  /** The subject of a containing request, and whether its deny-list entry is due. */
  function Subject(c: Config, req: Request): Option<Act> {
    Target(c, req, RouteOf(req.verb, req.path))
  }

  predicate Listed(c: Config, a: Act) {
    c.hasFeed && (a.Quarantine? || a.Revoke?)
  }

  predicate Recorded(a: Act) {
    a.Quarantine? || a.Revoke? || a.Clear?
  }

  /** Each of the request's appends is either still ahead of it or on its log. */
  ghost predicate Keeping(c: Config, d: Data, i: nat, t: Thread, a: Act) {
    var e := Entry(a, By(i));
    && (Do(Commit(a)) in t.code || e in d.store)
    && (Recorded(a) ==> Do(Record(a)) in t.code || e in d.evidence)
    && (Listed(c, a) ==> Do(Publish(a)) in t.code || e in d.feed)
    && (t.answer.Served? ==> Phased(6, t.code))
  }

  predicate Turned(t: Thread) {
    t.answer.Refused? || t.answer.Replayed?
  }

  ghost predicate Faithful(c: Config, i: nat, t: Thread, d: Data) {
    && Phased(0, t.code)
    && (Turned(t) ==> forall ins <- t.code :: ins.Release?)
    && (!Turned(t) && Subject(c, t.req).Some? ==> Keeping(c, d, i, t, Subject(c, t.req).value))
  }

  ghost predicate AllFaithful(c: Config, s: State) {
    forall i :: 0 <= i < |s.threads| ==> Faithful(c, i, s.threads[i], s.data)
  }

  /** A thread that is not turned away goes on, and its append reached the log. */
  lemma GoingOn(c: Config, d: Data, clock: nat, i: nat, t: Thread, op: Op, o: Outcome)
    requires t.code != [] && Fits(op, o) && !Turned(Turn(c, d, clock, t, op, o))
    ensures Turn(c, d, clock, t, op, o).code == t.code[1..]
    ensures var d' := Effect(c, d, i, t, op, o);
            && (op.Commit? ==> Entry(op.act, By(i)) in d'.store)
            && (op.Record? ==> Entry(op.act, By(i)) in d'.evidence)
            && (op.Publish? ==> Entry(op.act, By(i)) in d'.feed)
            && d.store <= d'.store && d.evidence <= d'.evidence && d.feed <= d'.feed
    ensures Turn(c, d, clock, t, op, o).answer.Served? ==> t.answer.Served? || op.Reply?
  {
  }

  lemma TurnKeeps(c: Config, s: State, i: nat, o: Outcome, a: Act)
    requires Enabled(s, Step(i, o)) && Phased(0, s.threads[i].code)
    requires Keeping(c, s.data, i, s.threads[i], a) && !Turned(ThreadStep(c, s, i, o).threads[i])
    ensures Keeping(c, ThreadStep(c, s, i, o).data, i, ThreadStep(c, s, i, o).threads[i], a)
  {
    var t, s' := s.threads[i], ThreadStep(c, s, i, o);
    var t' := s'.threads[i];
    assert t.code == [t.code[0]] + t.code[1..];
    if t.answer.Served? { PhasedTail(6, t.code); }
    if t.code[0].Do? {
      GoingOn(c, s.data, s.clock, i, t, t.code[0].op, o);
      StillKeeping(c, s.data, s'.data, i, t, t', a);
    }
  }

  lemma StillKeeping(c: Config, d: Data, d': Data, i: nat, t: Thread, t': Thread, a: Act)
    requires Keeping(c, d, i, t, a) && t.code != [] && t.code == [t.code[0]] + t'.code
    requires d.store <= d'.store && d.evidence <= d'.evidence && d.feed <= d'.feed
    requires t.code[0] == Do(Commit(a)) ==> Entry(a, By(i)) in d'.store
    requires t.code[0] == Do(Record(a)) ==> Entry(a, By(i)) in d'.evidence
    requires t.code[0] == Do(Publish(a)) ==> Entry(a, By(i)) in d'.feed
    requires t'.answer.Served? ==> Phased(6, t'.code)
    ensures Keeping(c, d', i, t', a)
  {
  }

  lemma OwnStepIsFaithful(c: Config, s: State, i: nat, o: Outcome)
    requires Enabled(s, Step(i, o)) && Faithful(c, i, s.threads[i], s.data)
    ensures Faithful(c, i, ThreadStep(c, s, i, o).threads[i], ThreadStep(c, s, i, o).data)
  {
    var t, t' := s.threads[i], ThreadStep(c, s, i, o).threads[i];
    PhasedTail(0, t.code);
    UnwindReleases(t.held);
    Unphased(0, Unwind(t.held));
    assert t.code[0] in t.code && t'.req == t.req;
    if !Turned(t') && Subject(c, t.req).Some? {
      TurnKeeps(c, s, i, o, Subject(c, t.req).value);
    }
  }

  lemma ArrivalIsFaithful(c: Config, req: Request, i: nat, d: Data)
    requires Configured(c)
    ensures Faithful(c, i, Dispatch(c, req), d)
  {
    DispatchCases(c, req);
    DispatchPhased(c, req);
    var t, r := Dispatch(c, req), RouteOf(req.verb, req.path);
    if !Turned(t) && Subject(c, req).Some? {
      WorkHolds(c, req, r);
    }
  }

  lemma WorkHolds(c: Config, req: Request, r: Route)
    requires Mutates(r) && Target(c, req, r).Some?
    ensures var a, code := Target(c, req, r).value, RouteCode(c, req, r);
            && Do(Commit(a)) in code
            && (Recorded(a) ==> Do(Record(a)) in code)
            && (Listed(c, a) ==> Do(Publish(a)) in code)
  {
    var a, work := Target(c, req, r).value, Work(c, req, r);
    assert Do(Commit(a)) in work;
    assert (Recorded(a) ==> Do(Record(a)) in work) && (Listed(c, a) ==> Do(Publish(a)) in work);
  }

  lemma FaithfulGrows(c: Config, i: nat, t: Thread, d: Data, d': Data)
    requires Faithful(c, i, t, d)
    requires d.store <= d'.store && d.evidence <= d'.evidence && d.feed <= d'.feed
    ensures Faithful(c, i, t, d')
  {
  }

  lemma FaithStays(c: Config, s: State, lab: Label)
    requires Configured(c) && Enabled(s, lab) && AllFaithful(c, s)
    ensures AllFaithful(c, Apply(c, s, lab))
  {
    var s' := Apply(c, s, lab);
    LogsOnlyGrow(c, s, lab);
    forall j | 0 <= j < |s'.threads| ensures Faithful(c, j, s'.threads[j], s'.data) {
      if j == |s.threads| {
        if lab.Arrive? { ArrivalIsFaithful(c, lab.req, j, s'.data); } else { Unphased(0, RefreshCode()); }
      } else if lab.Step? && lab.i == j {
        OwnStepIsFaithful(c, s, j, lab.o);
      } else {
        assert s'.threads[j] == s.threads[j];
        FaithfulGrows(c, j, s.threads[j], s.data, s'.data);
      }
    }
  }

  lemma {:induction false} FaithfulAlways(c: Config, s: State, run: seq<Label>)
    requires Configured(c) && Initial(s) && IsRun(c, s, run)
    ensures AllFaithful(c, After(c, s, run))
    decreases |run|
  {
    if run != [] {
      FaithfulAlways(c, s, run[..|run| - 1]);
      FaithStays(c, After(c, s, run[..|run| - 1]), run[|run| - 1]);
    }
  }

  /** A request that was answered has no append ahead of it. */
  lemma NothingAhead(t: Thread, op: Op)
    requires Phased(6, t.code) && 0 < Phase(Do(op)) <= 5
    ensures Do(op) !in t.code
  {
    if Do(op) in t.code { PhasesAbove(6, t.code, Do(op)); }
  }

  /** Everything a request is to append is on its log. */
  ghost predicate Contained(c: Config, d: Data, i: nat, a: Act) {
    var e := Entry(a, By(i));
    e in d.store && (Recorded(a) ==> e in d.evidence) && (Listed(c, a) ==> e in d.feed)
  }

  lemma AnsweredIsContained(c: Config, d: Data, i: nat, t: Thread)
    requires Faithful(c, i, t, d) && t.answer.Served? && Subject(c, t.req).Some?
    ensures Contained(c, d, i, Subject(c, t.req).value)
  {
    var a := Subject(c, t.req).value;
    NothingAhead(t, Commit(a));
    NothingAhead(t, Record(a));
    NothingAhead(t, Publish(a));
  }

  /**
   * A containing request whose handler returned has all its appends: the commit, the evidence row
   * and, where a feed is configured, the deny-list entry.
   */
  lemma AcceptedMeansContained(c: Config, s: State, run: seq<Label>, i: nat)
    requires Configured(c) && Initial(s) && IsRun(c, s, run)
    requires i < |After(c, s, run).threads| && After(c, s, run).threads[i].answer.Served?
    requires Subject(c, After(c, s, run).threads[i].req).Some?
    ensures Contained(c, After(c, s, run).data, i, Subject(c, After(c, s, run).threads[i].req).value)
  {
    FaithfulAlways(c, s, run);
    AnsweredIsContained(c, After(c, s, run).data, i, After(c, s, run).threads[i]);
  }
}
