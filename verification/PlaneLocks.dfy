/** Locks over every interleaving: mutual exclusion, no deadlock, and a bound on every run. */
module PlaneLocks {
  import opened Plane
  import opened PlanePrograms

  /** The order locks are taken in: store before feed, store before evidence. */
  function Rank(l: Lock): nat {
    match l
    case StoreLock => 0
    case FeedLock => 1
    case EvidenceLock => 2
    case AckLock => 3
    case CacheLock => 4
  }

  /** The components an operation touches. */
  function Footprint(op: Op): set<Lock> {
    match op
    case Lookup | Remember => {CacheLock}
    case Look(l) => {l}
    case Commit(_) | Refresh => {StoreLock}
    case Issue(_) => {StoreLock, EvidenceLock}
    case Record(_) => {EvidenceLock}
    case Publish(_) => {FeedLock}
    case Acknowledge => {AckLock}
    case _ => {}
  }

  /** From `held`, `code` takes locks upward, works only under its locks and ends holding `after`. */
  predicate Walks(held: seq<Lock>, code: Code, after: seq<Lock>)
    decreases |code|
  {
    if code == [] then held == after
    else
      match code[0]
      case Acquire(l) => (forall h <- held :: Rank(h) < Rank(l)) && Walks(held + [l], code[1..], after)
      case Release(l) => held != [] && held[|held| - 1] == l && Walks(held[..|held| - 1], code[1..], after)
      case Do(op) => Allowed(held, op) && Walks(held, code[1..], after)
  }

  predicate Allowed(held: seq<Lock>, op: Op) {
    && (forall l <- Footprint(op) :: l in held)
    && (op.Reply? ==> op.statuses != {})
  }

  predicate Disciplined(held: seq<Lock>, code: Code) {
    Walks(held, code, [])
  }

  // ---------------------------------------------------------------------------
  // Every program is disciplined
  // ---------------------------------------------------------------------------

  lemma {:induction false} WalksThen(held: seq<Lock>, a: Code, mid: seq<Lock>, b: Code, after: seq<Lock>)
    requires Walks(held, a, mid) && Walks(mid, b, after)
    ensures Walks(held, a + b, after)
    decreases |a|
  {
    if a == [] {
      assert a + b == b;
    } else {
      var code := a + b;
      assert code[0] == a[0] && code[1..] == a[1..] + b;
      match a[0] {
        case Acquire(l) => WalksThen(held + [l], a[1..], mid, b, after);
        case Release(l) => WalksThen(held[..|held| - 1], a[1..], mid, b, after);
        case Do(op) => WalksThen(held, a[1..], mid, b, after);
      }
    }
  }

  lemma WalksOne(held: seq<Lock>, op: Op)
    requires Allowed(held, op)
    ensures Walks(held, [Do(op)], held)
  {
    assert [Do(op)][1..] == [];
  }

  lemma UnderWalks(held: seq<Lock>, l: Lock, body: Code)
    requires forall h <- held :: Rank(h) < Rank(l)
    requires Walks(held + [l], body, held + [l])
    ensures Walks(held, Under(l, body), held)
  {
    var inside := held + [l];
    assert inside[..|inside| - 1] == held;
    assert [Release(l)][1..] == [];
    assert Walks(inside, [Release(l)], held);
    WalksThen(inside, body, inside, [Release(l)], held);
    var code := Under(l, body);
    assert code[0] == Acquire(l) && code[1..] == body + [Release(l)];
  }

  lemma RegionWalks(held: seq<Lock>, l: Lock, op: Op)
    requires forall h <- held :: Rank(h) < Rank(l)
    requires Allowed(held + [l], op)
    ensures Walks(held, Region(l, op), held)
  {
    WalksOne(held + [l], op);
    UnderWalks(held, l, [Do(op)]);
  }

  lemma IssuerWalks(act: Act)
    ensures Walks([], IssuerRun(act), [])
  {
    var s := [] + [StoreLock];
    RegionWalks(s, EvidenceLock, Issue(act));
    UnderWalks([], StoreLock, Region(EvidenceLock, Issue(act)));
  }

  lemma ContainWalks(act: Act, hasFeed: bool)
    ensures Walks([], Contain(act, hasFeed), [])
  {
    var a, b := Region(StoreLock, Commit(act)), Region(EvidenceLock, Record(act));
    var f := if hasFeed then Region(FeedLock, Publish(act)) else [];
    RegionWalks([], StoreLock, Commit(act));
    RegionWalks([], EvidenceLock, Record(act));
    RegionWalks([], FeedLock, Publish(act));
    WalksThen([], a, [], b, []);
    WalksThen([], a + b, [], f, []);
  }

  lemma WorkWalks(c: Config, req: Request, r: Route)
    requires Mutates(r)
    ensures Walks([], Work(c, req, r), [])
  {
    match r {
      case Activation(id) => RegionWalks([], StoreLock, Commit(Activate(id)));
      case Connection => IssuerWalks(Requested);
      case Approval(id) => IssuerWalks(Decided(id));
      case Denial(id) => IssuerWalks(Decided(id));
      case QuarantineParty => ContainWalks(Quarantine(c.party(req.body)), c.hasFeed);
      case ClearParty => ContainWalks(Clear(c.party(req.body)), false);
      case RevokeConnection(cid) =>
        RegionWalks([], StoreLock, Look(StoreLock));
        ContainWalks(Revoke(cid), c.hasFeed);
        WalksThen([], Region(StoreLock, Look(StoreLock)), [], Contain(Revoke(cid), c.hasFeed), []);
    }
  }

  lemma HandlerWalks(c: Config, req: Request, r: Route)
    requires Mutates(r)
    ensures Walks([], Handler(c, req, r), [])
  {
    WalksOne([], Check);
    WorkWalks(c, req, r);
    WalksThen([], [Do(Check)], [], Work(c, req, r), []);
  }

  lemma IdempotentWalks(handler: Code, statuses: set<nat>)
    requires Walks([], handler, []) && statuses != {}
    ensures Walks([], Idempotent(handler, statuses), [])
  {
    var a, b, d := [Do(Stamp)], Region(CacheLock, Lookup), [Do(Reply(statuses))];
    WalksOne([], Stamp);
    RegionWalks([], CacheLock, Lookup);
    WalksOne([], Reply(statuses));
    RegionWalks([], CacheLock, Remember);
    WalksThen([], a, [], b, []);
    WalksThen([], a + b, [], handler, []);
    WalksThen([], a + b + handler, [], d, []);
    WalksThen([], a + b + handler + d, [], Region(CacheLock, Remember), []);
  }

  lemma ScrapeWalks(hasFeed: bool)
    ensures Walks([StoreLock], Scrape(hasFeed), [StoreLock])
  {
    var s := [StoreLock];
    var look, ev := [Do(Look(StoreLock))], Region(EvidenceLock, Look(EvidenceLock));
    WalksOne(s, Look(StoreLock));
    RegionWalks(s, EvidenceLock, Look(EvidenceLock));
    if hasFeed {
      var f := Region(FeedLock, Look(FeedLock));
      RegionWalks(s, FeedLock, Look(FeedLock));
      WalksThen(s, look, s, f, s);
      WalksThen(s, look + f, s, ev, s);
    } else {
      WalksThen(s, look, s, ev, s);
      assert Scrape(hasFeed) == look + ev;
    }
  }

  lemma AcksThenReply(before: Code)
    requires Walks([], before, [])
    ensures Walks([], before + Region(AckLock, Look(AckLock)) + [Do(Reply({200}))], [])
  {
    var acks := Region(AckLock, Look(AckLock));
    RegionWalks([], AckLock, Look(AckLock));
    WalksOne([], Reply({200}));
    WalksThen([], before, [], acks, []);
    WalksThen([], before + acks, [], [Do(Reply({200}))], []);
  }

  lemma MetricsWalks(hasFeed: bool)
    ensures Walks([], MetricsCode(hasFeed), [])
  {
    ScrapeWalks(hasFeed);
    assert [] + [StoreLock] == [StoreLock];
    UnderWalks([], StoreLock, Scrape(hasFeed));
    AcksThenReply(Under(StoreLock, Scrape(hasFeed)));
  }

  lemma PortalWalks(cidAsked: bool)
    ensures Walks([], PortalCode(cidAsked), [])
  {
    var s := [] + [StoreLock];
    var look := [Do(Look(StoreLock))];
    var e := if cidAsked then Region(EvidenceLock, Look(EvidenceLock)) else [];
    WalksOne(s, Look(StoreLock));
    RegionWalks(s, EvidenceLock, Look(EvidenceLock));
    WalksThen(s, look, s, e, s);
    UnderWalks([], StoreLock, look + e);
    WalksOne([], Reply({200}));
    WalksThen([], Under(StoreLock, look + e), [], [Do(Reply({200}))], []);
  }

  lemma PlainReadWalks(l: Lock)
    ensures Walks([], Region(l, Look(l)) + [Do(Reply({200}))], [])
  {
    RegionWalks([], l, Look(l));
    WalksOne([], Reply({200}));
    WalksThen([], Region(l, Look(l)), [], [Do(Reply({200}))], []);
  }

  lemma RouteCodeWalks(c: Config, req: Request, r: Route)
    requires RoleFor(r).Some?
    ensures Walks([], RouteCode(c, req, r), [])
  {
    if Mutates(r) {
      HandlerWalks(c, req, r);
      IdempotentWalks(Handler(c, req, r), Statuses(r));
    } else if r.PortalPage? {
      PortalWalks(req.cidAsked);
    } else if r.AckSet? {
      WalksOne([], Check);
      RegionWalks([], AckLock, Acknowledge);
      WalksOne([], Reply({204}));
      WalksThen([], [Do(Check)], [], Region(AckLock, Acknowledge), []);
      WalksThen([], [Do(Check)] + Region(AckLock, Acknowledge), [], [Do(Reply({204}))], []);
    } else if r.MediatorStatus? {
      RegionWalks([], StoreLock, Look(StoreLock));
      AcksThenReply(Region(StoreLock, Look(StoreLock)));
    } else {
      PlainReadWalks(StoreLock);
      PlainReadWalks(FeedLock);
      PlainReadWalks(EvidenceLock);
    }
  }

  const LONGEST := 22

  lemma ReadyWalks()
    ensures Disciplined([], [Do(Check), Do(Reply({200}))])
  {
    WalksOne([], Check);
    WalksOne([], Reply({200}));
    WalksThen([], [Do(Check)], [], [Do(Reply({200}))], []);
    assert [Do(Check), Do(Reply({200}))] == [Do(Check)] + [Do(Reply({200}))];
  }

  lemma ProgramIsDisciplined(c: Config, req: Request, r: Route, t: Thread)
    requires || t == Ended(req, t.answer)
             || t == Started(req, [Do(Check), Do(Reply({200}))])
             || t == Started(req, MetricsCode(c.hasFeed))
             || (RoleFor(r).Some? && t == Started(req, RouteCode(c, req, r)))
    ensures t.held == [] && Disciplined([], t.code) && |t.code| <= LONGEST
  {
    if t == Started(req, [Do(Check), Do(Reply({200}))]) {
      ReadyWalks();
    } else if t == Started(req, MetricsCode(c.hasFeed)) {
      MetricsWalks(c.hasFeed);
    } else if t != Ended(req, t.answer) {
      RouteCodeWalks(c, req, r);
    }
  }

  /** Whatever arrives starts with no lock, a disciplined program and at most `LONGEST` instructions. */
  lemma DispatchIsDisciplined(c: Config, req: Request)
    requires Configured(c)
    ensures Dispatch(c, req).held == [] && Disciplined([], Dispatch(c, req).code)
    ensures |Dispatch(c, req).code| <= LONGEST
  {
    DispatchCases(c, req);
    ProgramIsDisciplined(c, req, RouteOf(req.verb, req.path), Dispatch(c, req));
  }

  lemma RefreshIsDisciplined()
    ensures Disciplined([], RefreshCode()) && |RefreshCode()| <= LONGEST
  {
    RegionWalks([], StoreLock, Refresh);
  }

  /** Refusing in the middle of a program leaves a disciplined one, no longer than what it replaces. */
  lemma {:induction false} UnwindIsDisciplined(held: seq<Lock>)
    ensures Disciplined(held, Unwind(held)) && |Unwind(held)| == |held|
    decreases |held|
  {
    if held != [] {
      UnwindIsDisciplined(held[..|held| - 1]);
      assert Unwind(held)[1..] == Unwind(held[..|held| - 1]);
    }
  }

  lemma {:induction false} ReleasesRemain(held: seq<Lock>, code: Code)
    requires Disciplined(held, code)
    ensures |held| <= |code|
    decreases |code|
  {
    if code != [] {
      match code[0] {
        case Acquire(l) => ReleasesRemain(held + [l], code[1..]);
        case Release(l) => ReleasesRemain(held[..|held| - 1], code[1..]);
        case Do(op) => ReleasesRemain(held, code[1..]);
      }
    }
  }

  // ---------------------------------------------------------------------------
  // Ownership
  // ---------------------------------------------------------------------------

  /** The lock table names exactly the holders. */
  ghost predicate TableAgrees(owner: map<Lock, nat>, threads: seq<Thread>) {
    && (forall i, l :: 0 <= i < |threads| && l in threads[i].held ==> l in owner && owner[l] == i)
    && (forall l :: l in owner ==> owner[l] < |threads| && l in threads[owner[l]].held)
    && (forall i :: 0 <= i < |threads| ==> Distinct(threads[i].held))
  }

  /** The lock table and the threads agree, and every thread can finish what it holds. */
  ghost predicate LocksAgree(s: State) {
    && TableAgrees(s.owner, s.threads)
    && (forall i :: 0 <= i < |s.threads| ==> Disciplined(s.threads[i].held, s.threads[i].code))
  }

  predicate Distinct(held: seq<Lock>) {
    forall i, j :: 0 <= i < j < |held| ==> held[i] != held[j]
  }

  /** One instruction of a disciplined thread leaves it disciplined. */
  lemma TurnIsDisciplined(c: Config, s: State, i: nat, o: Outcome)
    requires CanStep(s, i) && Disciplined(s.threads[i].held, s.threads[i].code)
    ensures var t := ThreadStep(c, s, i, o).threads[i];
            Disciplined(t.held, t.code) && |t.code| < |s.threads[i].code|
  {
    var t := s.threads[i];
    UnwindIsDisciplined(t.held);
    if t.code[0].Do? {
      ReleasesRemain(t.held, t.code[1..]);
    }
  }

  lemma ArrivalKeepsLocks(s: State, t: Thread)
    requires LocksAgree(s) && t.held == [] && Disciplined([], t.code)
    ensures LocksAgree(s.(threads := s.threads + [t]))
  {
    assert forall i :: 0 <= i < |s.threads| ==> (s.threads + [t])[i] == s.threads[i];
  }

  lemma StepKeepsLocks(c: Config, s: State, i: nat, o: Outcome)
    requires LocksAgree(s) && CanStep(s, i)
    ensures LocksAgree(ThreadStep(c, s, i, o))
  {
    var t, s' := s.threads[i], ThreadStep(c, s, i, o);
    var t' := s'.threads[i];
    TurnIsDisciplined(c, s, i, o);
    assert s'.threads == s.threads[i := t'];
    assert Disciplined(t.held, t.code);
    if t.code[0].Acquire? {
      AcquireKeepsTable(s.owner, s.threads, i, t', t.code[0].l);
    } else if t.code[0].Release? {
      assert t.held == t'.held + [t.code[0].l];
      ReleaseKeepsTable(s.owner, s.threads, i, t', t.code[0].l);
    } else {
      assert t'.held == t.held;
      assert TableAgrees(s.owner, s.threads[i := t']);
    }
  }

  lemma LocksStayAgreed(c: Config, s: State, lab: Label)
    requires Configured(c) && Enabled(s, lab) && LocksAgree(s)
    ensures LocksAgree(Apply(c, s, lab))
  {
    match lab {
      case Arrive(req) =>
        DispatchIsDisciplined(c, req);
        ArrivalKeepsLocks(s, Dispatch(c, req));
      case RefreshPass =>
        RefreshIsDisciplined();
        ArrivalKeepsLocks(s, Started(IDLE, RefreshCode()));
      case SetClock(_) =>
      case Step(i, o) => StepKeepsLocks(c, s, i, o);
    }
  }

  lemma AcquireKeepsTable(owner: map<Lock, nat>, threads: seq<Thread>, i: nat, t: Thread, l: Lock)
    requires TableAgrees(owner, threads) && i < |threads|
    requires l !in owner && t.held == threads[i].held + [l]
    ensures TableAgrees(owner[l := i], threads[i := t])
  {
    assert l !in threads[i].held;
    assert Distinct(t.held);
  }

  lemma ReleaseKeepsTable(owner: map<Lock, nat>, threads: seq<Thread>, i: nat, t: Thread, l: Lock)
    requires TableAgrees(owner, threads) && i < |threads|
    requires threads[i].held == t.held + [l]
    ensures TableAgrees(owner - {l}, threads[i := t])
  {
    var was := threads[i].held;
    assert Distinct(was);
    forall k | 0 <= k < |t.held| ensures t.held[k] != l {
      assert was[k] == t.held[k] && was[|was| - 1] == l;
    }
    assert l !in t.held;
    assert forall m :: m in was <==> m in t.held || m == l;
    assert Distinct(t.held) by {
      forall j, k | 0 <= j < k < |t.held| ensures t.held[j] != t.held[k] {
        assert was[j] == t.held[j] && was[k] == t.held[k];
      }
    }
    assert l in was && owner[l] == i by { assert was[|was| - 1] == l; }
    var owner', threads' := owner - {l}, threads[i := t];
    forall m | m in owner' ensures owner'[m] < |threads'| && m in threads'[owner'[m]].held {
      assert m in owner && m in threads[owner[m]].held;
    }
    forall j, m | 0 <= j < |threads'| && m in threads'[j].held ensures m in owner' && owner'[m] == j {
      assert m in threads[j].held;
    }
  }

  /** The table agrees with the threads in every reachable state. */
  lemma {:induction false} LocksAgreeAlways(c: Config, s: State, run: seq<Label>)
    requires Configured(c) && Initial(s) && IsRun(c, s, run)
    ensures LocksAgree(After(c, s, run))
    decreases |run|
  {
    if run != [] {
      LocksAgreeAlways(c, s, run[..|run| - 1]);
      LocksStayAgreed(c, After(c, s, run[..|run| - 1]), run[|run| - 1]);
    }
  }

  /**
   * Mutual exclusion: in every reachable state, a thread about to perform an operation holds the
   * lock of every component the operation touches, and no other thread holds any of them.
   */
  lemma NoTwoTouchOneComponent(c: Config, s: State, run: seq<Label>, i: nat, j: nat)
    requires Configured(c) && Initial(s) && IsRun(c, s, run)
    requires i < |After(c, s, run).threads| && j < |After(c, s, run).threads| && i != j
    requires After(c, s, run).threads[i].code != [] && After(c, s, run).threads[i].code[0].Do?
    ensures var now := After(c, s, run);
            forall l <- Footprint(now.threads[i].code[0].op) :: l in now.threads[i].held && l !in now.threads[j].held
  {
    LocksAgreeAlways(c, s, run);
    var now := After(c, s, run);
    assert Disciplined(now.threads[i].held, now.threads[i].code);
    forall l <- Footprint(now.threads[i].code[0].op)
      ensures l in now.threads[i].held && l !in now.threads[j].held
    {
      assert Allowed(now.threads[i].held, now.threads[i].code[0].op);
      assert now.owner[l] == i;
    }
  }

  // ---------------------------------------------------------------------------
  // Progress
  // ---------------------------------------------------------------------------

  /** Follow the wait from `i` to the holder, and on: ranks rise, so the chain ends at a thread that can run. */
  lemma {:induction false} SomeoneCanRun(s: State, i: nat) returns (k: nat)
    requires LocksAgree(s) && i < |s.threads| && s.threads[i].code != []
    ensures CanStep(s, k)
    decreases if s.threads[i].code[0].Acquire? then 5 - Rank(s.threads[i].code[0].l) else 0
  {
    var t := s.threads[i];
    if t.code[0].Acquire? && t.code[0].l in s.owner {
      var l := t.code[0].l;
      var j := s.owner[l];
      assert l in s.threads[j].held;
      ReleasesRemain(s.threads[j].held, s.threads[j].code);
      if s.threads[j].code[0].Acquire? {
        assert Rank(l) < Rank(s.threads[j].code[0].l);
      }
      k := SomeoneCanRun(s, j);
    } else {
      k := i;
    }
  }

  predicate Busy(s: State) {
    exists i | 0 <= i < |s.threads| :: s.threads[i].code != []
  }

  /** An outcome the next operation of thread `k` can have. */
  lemma StepExists(s: State, k: nat) returns (o: Outcome)
    requires LocksAgree(s) && CanStep(s, k)
    ensures Enabled(s, Step(k, o))
  {
    var ins := s.threads[k].code[0];
    if ins.Do? && ins.op.Reply? {
      assert Allowed(s.threads[k].held, ins.op);
      var status :| status in ins.op.statuses;
      o := Pass(status, "", 0, 0);
    } else {
      o := Pass(0, "", 0, 0);
    }
  }

  /** No deadlock: in every reachable state with a request or a refresh in flight, some thread can step. */
  lemma NeverDeadlocked(c: Config, s: State, run: seq<Label>)
    requires Configured(c) && Initial(s) && IsRun(c, s, run) && Busy(After(c, s, run))
    ensures exists k, o :: Enabled(After(c, s, run), Step(k, o))
  {
    LocksAgreeAlways(c, s, run);
    var now := After(c, s, run);
    var i :| 0 <= i < |now.threads| && now.threads[i].code != [];
    var k := SomeoneCanRun(now, i);
    var o := StepExists(now, k);
  }

  // ---------------------------------------------------------------------------
  // Every run ends
  // ---------------------------------------------------------------------------

  /** Instructions left over all threads. */
  function Remaining(threads: seq<Thread>): nat {
    if threads == [] then 0 else |threads[0].code| + Remaining(threads[1..])
  }

  lemma {:induction false} RemainingAppends(threads: seq<Thread>, t: Thread)
    ensures Remaining(threads + [t]) == Remaining(threads) + |t.code|
    decreases |threads|
  {
    if threads == [] {
      assert [] + [t] == [t] && [t][1..] == [];
    } else {
      assert (threads + [t])[1..] == threads[1..] + [t];
      RemainingAppends(threads[1..], t);
    }
  }

  lemma {:induction false} RemainingUpdates(threads: seq<Thread>, i: nat, t: Thread)
    requires i < |threads|
    ensures Remaining(threads[i := t]) == Remaining(threads) - |threads[i].code| + |t.code|
    decreases |threads|
  {
    if i == 0 {
      assert threads[0 := t][1..] == threads[1..];
    } else {
      assert threads[i := t][1..] == threads[1..][i - 1 := t];
      RemainingUpdates(threads[1..], i - 1, t);
    }
  }

  lemma StepsUseUpWork(c: Config, s: State, i: nat, o: Outcome)
    requires LocksAgree(s) && CanStep(s, i)
    ensures Remaining(ThreadStep(c, s, i, o).threads) < Remaining(s.threads)
  {
    var s' := ThreadStep(c, s, i, o);
    TurnIsDisciplined(c, s, i, o);
    assert s'.threads == s.threads[i := s'.threads[i]];
    RemainingUpdates(s.threads, i, s'.threads[i]);
  }

  function Steps(run: seq<Label>): nat {
    if run == [] then 0 else Steps(run[..|run| - 1]) + if run[|run| - 1].Step? then 1 else 0
  }

  function Arrivals(run: seq<Label>): nat {
    if run == [] then 0
    else Arrivals(run[..|run| - 1]) + if run[|run| - 1].Arrive? || run[|run| - 1].RefreshPass? then 1 else 0
  }

  /** Every run of finitely many requests and refresh passes is finite: at most `LONGEST` steps each. */
  lemma {:induction false} RunsAreBounded(c: Config, s: State, run: seq<Label>)
    requires Configured(c) && Initial(s) && IsRun(c, s, run)
    ensures Steps(run) + Remaining(After(c, s, run).threads) <= LONGEST * Arrivals(run)
    decreases |run|
  {
    if run != [] {
      var front, last := run[..|run| - 1], run[|run| - 1];
      RunsAreBounded(c, s, front);
      LocksAgreeAlways(c, s, front);
      var now := After(c, s, front);
      match last {
        case Arrive(req) =>
          DispatchIsDisciplined(c, req);
          RemainingAppends(now.threads, Dispatch(c, req));
        case RefreshPass =>
          RefreshIsDisciplined();
          RemainingAppends(now.threads, Started(IDLE, RefreshCode()));
        case SetClock(_) =>
        case Step(i, o) => StepsUseUpWork(c, now, i, o);
      }
    }
  }

  lemma RunExtends(c: Config, s: State, run: seq<Label>, lab: Label)
    requires Configured(c) && IsRun(c, s, run) && Enabled(After(c, s, run), lab)
    ensures IsRun(c, s, run + [lab]) && After(c, s, run + [lab]) == Apply(c, After(c, s, run), lab)
  {
    var longer := run + [lab];
    assert longer[..|longer| - 1] == run && longer[|longer| - 1] == lab;
  }

  lemma SomeStep(now: State) returns (k: nat, o: Outcome)
    requires LocksAgree(now) && Busy(now)
    ensures Enabled(now, Step(k, o))
  {
    var i :| 0 <= i < |now.threads| && now.threads[i].code != [];
    k := SomeoneCanRun(now, i);
    o := StepExists(now, k);
  }

  lemma OneMoreStep(c: Config, s: State, run: seq<Label>) returns (lab: Label)
    requires Configured(c) && Initial(s) && IsRun(c, s, run) && Busy(After(c, s, run))
    ensures lab.Step? && IsRun(c, s, run + [lab])
    ensures Remaining(After(c, s, run + [lab]).threads) < Remaining(After(c, s, run).threads)
  {
    LocksAgreeAlways(c, s, run);
    var now := After(c, s, run);
    var k, o := SomeStep(now);
    lab := Step(k, o);
    RunExtends(c, s, run, lab);
    StepsUseUpWork(c, now, k, o);
  }

  /** The run that drains a state, as a longer run. */
  lemma {:induction false} Drained(c: Config, s: State, run: seq<Label>) returns (whole: seq<Label>)
    requires Configured(c) && Initial(s) && IsRun(c, s, run)
    ensures IsRun(c, s, whole) && !Busy(After(c, s, whole))
    ensures run <= whole && forall k :: |run| <= k < |whole| ==> whole[k].Step?
    decreases Remaining(After(c, s, run).threads)
  {
    if Busy(After(c, s, run)) {
      var lab := OneMoreStep(c, s, run);
      whole := Drained(c, s, run + [lab]);
      assert whole[|run|] == (run + [lab])[|run|];
    } else {
      whole := run;
    }
  }

  /** From every reachable state the requests in flight can all be finished, by steps alone. */
  lemma EverythingCanFinish(c: Config, s: State, run: seq<Label>) returns (more: seq<Label>)
    requires Configured(c) && Initial(s) && IsRun(c, s, run)
    ensures IsRun(c, s, run + more) && !Busy(After(c, s, run + more))
    ensures forall lab <- more :: lab.Step?
  {
    var whole := Drained(c, s, run);
    more := whole[|run|..];
    assert run + more == whole;
  }
}
