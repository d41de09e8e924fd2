/** Runs in which one request at a time moves: the tools for showing that something can happen. */
module PlaneSolo {
  import opened Wrappers
  import opened Plane
  import opened PlaneGuards
  import opened PlaneLocks
  import opened PlanePrograms
  import opened PlaneContainment
  import opened PlaneIdempotency

  predicate OnlySteps(labels: seq<Label>) {
    forall lab <- labels :: lab.Step?
  }

  ghost predicate NobodyElseHolds(s: State, i: nat) {
    forall l :: l in s.owner ==> s.owner[l] == i
  }

  // ---------------------------------------------------------------------------
  // From the lookup to the end
  // ---------------------------------------------------------------------------

  /** What a mutating request does to the register. */
  function ActOf(c: Config, req: Request): Act
    requires Mutating(req)
  {
    match RouteOf(req.verb, req.path)
    case Activation(id) => Activate(id)
    case Connection => Requested
    case Approval(id) => Decided(id)
    case Denial(id) => Decided(id)
    case QuarantineParty => Quarantine(c.party(req.body))
    case ClearParty => Clear(c.party(req.body))
    case RevokeConnection(cid) => Revoke(cid)
  }

  /** Whether the issuer does it, which may append several entries at once. */
  predicate ByIssuer(req: Request) {
    var r := RouteOf(req.verb, req.path);
    r.Connection? || r.Approval? || r.Denial?
  }

  function CountOf(req: Request, want: Outcome): nat {
    if ByIssuer(req) then want.commits else 1
  }

  /** The way wanted: it goes through, appends, and answers as the route may; and the guards allow all of it. */
  ghost predicate Granted(g: Guards, acts: seq<Act>, clock: nat, req: Request, want: Outcome) {
    && want.Pass? && want.commits > 0 && want.status in Statuses(RouteOf(req.verb, req.path))
    && g.accepts(req) && g.replies(req, want.status, want.body)
    && g.permits(acts, req, CountOf(req, want), clock)
  }

  predicate Appends(ins: Instr) {
    ins.Do? && (ins.op.Commit? || ins.op.Issue?)
  }

  /** The register is looked at before it is written. */
  predicate LooksFirst(code: Code) {
    forall j, k :: 0 <= j < k < |code| && Appends(code[j]) ==> code[k] != Do(Look(StoreLock))
  }

  /** The one instruction of the program that writes the register. */
  function Writing(c: Config, req: Request): Instr
    requires Mutating(req)
  {
    Do(if ByIssuer(req) then Issue(ActOf(c, req)) else Commit(ActOf(c, req)))
  }

  predicate WritesOnce(c: Config, req: Request, code: Code)
    requires Mutating(req)
  {
    && LooksFirst(code)
    && (forall ins <- code :: Appends(ins) ==> ins == Writing(c, req))
    && (Do(Look(StoreLock)) in code ==> Writing(c, req) in code && !ByIssuer(req))
  }

  /** What the cache will hold for a request that succeeds with `body`. */
  function RecordOf(c: Config, t: Thread, body: string): Remembered {
    Remembered(t.stamp + IDEMPOTENCY_TTL_SECS, c.sha(t.req.body), body)
  }

  /** The write is ahead and the register is as it was, or it is done and the register holds it on top. */
  ghost predicate WriteKept(c: Config, from: seq<Entry>, d: Data, i: nat, t: Thread, want: Outcome)
    requires Mutating(t.req)
  {
    if Writing(c, t.req) in t.code then d.store == from
    else d.store == from + Copies(Entry(ActOf(c, t.req), By(i)), CountOf(t.req, want))
  }

  /** Each thing a successful request does is ahead of it or done. */
  ghost predicate OnCourse(c: Config, from: seq<Entry>, d: Data, i: nat, t: Thread, want: Outcome) {
    && want.Pass? && Mutating(t.req) && t.req.key.Some? && WritesOnce(c, t.req, t.code)
    && (forall ins <- t.code :: ins.Do? && ins.op.Reply? ==> want.status in ins.op.statuses)
    && (t.answer.Waiting? || t.answer == Served(want.status, want.body))
    && WriteKept(c, from, d, i, t, want)
    && (Do(Remember) in t.code
        || (t.req.key.value in d.cache && d.cache[t.req.key.value] == RecordOf(c, t, want.body)))
  }

  /** A thread past its lookup simply goes on to its next instruction. */
  lemma GoesOn(c: Config, s: State, i: nat, want: Outcome)
    requires Enabled(s, Step(i, want)) && Honest(s.threads[i]) && Begun(s.threads[i]) && want.Pass?
    ensures var t, t' := s.threads[i], ThreadStep(c, s, i, want).threads[i];
            && t'.code == t.code[1..] && t'.req == t.req && t'.stamp == t.stamp && t'.begun == t.begun && Begun(t')
            && t'.answer == if t.code[0].Do? && t.code[0].op.Reply? then Served(want.status, want.body) else t.answer
  {
    var t := s.threads[i];
    assert t.code == [t.code[0]] + t.code[1..];
    assert t.code[0] in t.code && t.code[0] != Do(Stamp);
  }

  /** Once the register is written, the program neither writes it again nor looks at it. */
  lemma WriteIsLast(c: Config, t: Thread)
    requires Phased(0, t.code) && Mutating(t.req) && WritesOnce(c, t.req, t.code) && t.code != [] && Appends(t.code[0])
    ensures t.code[0] == Writing(c, t.req) && Writing(c, t.req) !in t.code[1..]
    ensures forall ins <- t.code[1..] :: !Appends(ins) && ins != Do(Look(StoreLock))
  {
    assert t.code[0] in t.code;
    forall ins <- t.code[1..] ensures !Appends(ins) && ins != Do(Look(StoreLock)) {
      var k :| 0 <= k < |t.code| - 1 && t.code[1..][k] == ins;
      assert t.code[k + 1] == ins;
      if Appends(ins) { HeadIsLast(t.code, ins); }
    }
  }

  lemma WritesOnceTail(c: Config, req: Request, code: Code)
    requires Mutating(req) && code != [] && WritesOnce(c, req, code)
    ensures WritesOnce(c, req, code[1..])
  {
    var rest := code[1..];
    forall j, k | 0 <= j < k < |rest| && Appends(rest[j]) ensures rest[k] != Do(Look(StoreLock)) {
      assert rest[j] == code[j + 1] && rest[k] == code[k + 1];
    }
    if Do(Look(StoreLock)) in rest {
      var k :| 0 <= k < |rest| && rest[k] == Do(Look(StoreLock));
      assert code[k + 1] == Do(Look(StoreLock)) && code[k + 1] in code;
      assert code == [code[0]] + rest;
    }
  }

  lemma StoreAfter(c: Config, s: State, i: nat, want: Outcome)
    requires CanStep(s, i) && want.Pass? && Mutating(s.threads[i].req)
    requires WritesOnce(c, s.threads[i].req, s.threads[i].code)
    ensures var t, d' := s.threads[i], ThreadStep(c, s, i, want).data;
            d'.store == if Appends(t.code[0])
                        then s.data.store + Copies(Entry(ActOf(c, t.req), By(i)), CountOf(t.req, want))
                        else s.data.store
  {
    var t := s.threads[i];
    assert t.code[0] in t.code;
    if t.code[0].Do? && t.code[0].op.Commit? {
      assert Copies(Entry(ActOf(c, t.req), By(i)), 1) == [Entry(ActOf(c, t.req), By(i))];
    }
  }

  lemma WriteStaysKept(c: Config, from: seq<Entry>, s: State, i: nat, want: Outcome)
    requires Enabled(s, Step(i, want)) && Honest(s.threads[i]) && Begun(s.threads[i])
    requires OnCourse(c, from, s.data, i, s.threads[i], want)
    ensures WriteKept(c, from, ThreadStep(c, s, i, want).data, i, ThreadStep(c, s, i, want).threads[i], want)
  {
    var t := s.threads[i];
    GoesOn(c, s, i, want);
    StoreAfter(c, s, i, want);
    assert t.code == [t.code[0]] + t.code[1..];
    if Appends(t.code[0]) {
      WriteIsLast(c, t);
      assert Writing(c, t.req) in t.code;
    }
  }

  lemma RecordKept(c: Config, from: seq<Entry>, s: State, i: nat, want: Outcome)
    requires Enabled(s, Step(i, want)) && Honest(s.threads[i]) && Begun(s.threads[i])
    requires OnCourse(c, from, s.data, i, s.threads[i], want)
    ensures var t, d' := s.threads[i], ThreadStep(c, s, i, want).data;
            || Do(Remember) in t.code[1..]
            || (t.req.key.value in d'.cache && d'.cache[t.req.key.value] == RecordOf(c, t, want.body))
  {
    var t := s.threads[i];
    assert t.code == [t.code[0]] + t.code[1..];
    assert t.code[0] in t.code;
    if t.code[0] == Do(Remember) { RememberIsServed(t); }
  }

  lemma StaysOnCourse(c: Config, from: seq<Entry>, s: State, i: nat, want: Outcome)
    requires Enabled(s, Step(i, want)) && Honest(s.threads[i]) && Begun(s.threads[i])
    requires OnCourse(c, from, s.data, i, s.threads[i], want)
    ensures OnCourse(c, from, ThreadStep(c, s, i, want).data, i, ThreadStep(c, s, i, want).threads[i], want)
  {
    var t := s.threads[i];
    GoesOn(c, s, i, want);
    WritesOnceTail(c, t.req, t.code);
    WriteStaysKept(c, from, s, i, want);
    RecordKept(c, from, s, i, want);
  }

  /** Only `i` moved, keeping its request and clock readings; no other key came into the cache. */
  ghost predicate OnlyMoved(now: State, next: State, i: nat) {
    && |next.threads| == |now.threads| && i < |now.threads| && next.clock == now.clock
    && next.threads == now.threads[i := next.threads[i]]
    && next.threads[i].req == now.threads[i].req
    && next.threads[i].stamp == now.threads[i].stamp && next.threads[i].begun == now.threads[i].begun
    && (forall k :: k in next.data.cache && now.threads[i].req.key != Some(k) ==> k in now.data.cache)
  }

  lemma MovesCompose(first: State, middle: State, last: State, i: nat)
    requires OnlyMoved(first, middle, i) && OnlyMoved(middle, last, i)
    ensures OnlyMoved(first, last, i)
  {
  }

  lemma MovesAlone(c: Config, s: State, i: nat, want: Outcome)
    requires Enabled(s, Step(i, want)) && Honest(s.threads[i]) && Begun(s.threads[i]) && want.Pass?
    requires NobodyElseHolds(s, i)
    ensures OnlyMoved(s, ThreadStep(c, s, i, want), i) && NobodyElseHolds(ThreadStep(c, s, i, want), i)
  {
    GoesOn(c, s, i, want);
  }

  /** Thread `i` is past its lookup, nobody else holds a lock, and it is going through as wanted. */
  ghost predicate Unhindered(c: Config, from: seq<Entry>, s: State, i: nat, want: Outcome) {
    && i < |s.threads| && Begun(s.threads[i]) && NobodyElseHolds(s, i)
    && OnCourse(c, from, s.data, i, s.threads[i], want)
  }

  lemma NextIsEnabled(c: Config, from: seq<Entry>, s: State, i: nat, want: Outcome)
    requires LocksAgree(s) && Unhindered(c, from, s, i, want) && s.threads[i].code != []
    ensures Enabled(s, Step(i, want))
  {
    var t := s.threads[i];
    assert Disciplined(t.held, t.code);
    assert t.code[0].Acquire? ==> t.code[0].l !in t.held;
    assert t.code[0] in t.code;
  }

  /** Whatever the guards allowed of the whole, they allow of the next instruction. */
  lemma NextIsLawful(c: Config, g: Guards, base: nat, from: seq<Entry>, s: State, i: nat, want: Outcome)
    requires Unhindered(c, from, s, i, want) && s.threads[i].code != [] && base <= |from| && Honest(s.threads[i])
    requires Granted(g, Acts(from[base..]), s.clock, s.threads[i].req, want)
    ensures Lawful(g, base, s, Step(i, want))
  {
    var t := s.threads[i];
    assert t.code[0] in t.code;
    if t.code[0] == Do(Look(StoreLock)) || Appends(t.code[0]) {
      assert Writing(c, t.req) in t.code;
      assert Since(base, s.data) == Acts(from[base..]);
    }
  }

  lemma OneMorePass(c: Config, s: State, run: seq<Label>, i: nat, want: Outcome, from: seq<Entry>, g: Guards)
    requires Configured(c) && Initial(s) && IsRun(c, s, run) && Obeys(c, s, run, g)
    requires Unhindered(c, from, After(c, s, run), i, want) && After(c, s, run).threads[i].code != []
    requires |s.data.store| <= |from|
    requires Granted(g, Acts(from[|s.data.store|..]), After(c, s, run).clock, After(c, s, run).threads[i].req, want)
    ensures IsRun(c, s, run + [Step(i, want)]) && Obeys(c, s, run + [Step(i, want)], g)
    ensures var now, next := After(c, s, run), After(c, s, run + [Step(i, want)]);
            && OnlyMoved(now, next, i) && Unhindered(c, from, next, i, want)
            && next.threads[i].code == now.threads[i].code[1..]
  {
    var now := After(c, s, run);
    LocksAgreeAlways(c, s, run);
    SoundAlways(c, s, run);
    NextIsEnabled(c, from, now, i, want);
    NextIsLawful(c, g, |s.data.store|, from, now, i, want);
    ObeysExtends(c, s, run, Step(i, want), g);
    GoesOn(c, now, i, want);
    MovesAlone(c, now, i, want);
    StaysOnCourse(c, from, now, i, want);
  }

  /** Done: served as wanted, on top of the register, remembered, and holding nothing. */
  ghost predicate Through(c: Config, from: seq<Entry>, s: State, i: nat, want: Outcome) {
    && want.Pass? && i < |s.threads| && s.owner == map[]
    && var t := s.threads[i];
    && t.code == [] && Mutating(t.req) && t.req.key.Some?
    && t.answer == Served(want.status, want.body)
    && s.data.store == from + Copies(Entry(ActOf(c, t.req), By(i)), CountOf(t.req, want))
    && t.req.key.value in s.data.cache && s.data.cache[t.req.key.value] == RecordOf(c, t, want.body)
  }

  lemma EndsThrough(c: Config, s: State, run: seq<Label>, i: nat, want: Outcome, from: seq<Entry>)
    requires Configured(c) && Initial(s) && IsRun(c, s, run)
    requires Unhindered(c, from, After(c, s, run), i, want) && After(c, s, run).threads[i].code == []
    ensures Through(c, from, After(c, s, run), i, want)
  {
    LocksAgreeAlways(c, s, run);
    SoundAlways(c, s, run);
    var now := After(c, s, run);
    assert Honest(now.threads[i]) && Disciplined(now.threads[i].held, []);
  }

  lemma Joined(c: Config, s: State, run: seq<Label>, a: seq<Label>, b: seq<Label>, last: State, g: Guards)
    requires Configured(c) && IsRun(c, s, run + a + b) && After(c, s, run + a + b) == last
    requires Obeys(c, s, run + a + b, g) && OnlySteps(a) && OnlySteps(b)
    ensures IsRun(c, s, run + (a + b)) && After(c, s, run + (a + b)) == last
    ensures Obeys(c, s, run + (a + b), g) && OnlySteps(a + b)
  {
    assert run + (a + b) == run + a + b;
  }

  /** Such a thread can be run to the end while nobody else moves, if the guards allow the way wanted. */
  lemma {:induction false} FinishAlone(c: Config, s: State, run: seq<Label>, i: nat, want: Outcome,
                                       from: seq<Entry>, g: Guards)
      returns (more: seq<Label>)
    requires Configured(c) && Initial(s) && IsRun(c, s, run) && Obeys(c, s, run, g)
    requires Unhindered(c, from, After(c, s, run), i, want) && |s.data.store| <= |from|
    requires Granted(g, Acts(from[|s.data.store|..]), After(c, s, run).clock, After(c, s, run).threads[i].req, want)
    ensures IsRun(c, s, run + more) && Obeys(c, s, run + more, g) && OnlySteps(more)
    ensures OnlyMoved(After(c, s, run), After(c, s, run + more), i)
    ensures Through(c, from, After(c, s, run + more), i, want)
    decreases |After(c, s, run).threads[i].code|
  {
    var now := After(c, s, run);
    if now.threads[i].code == [] {
      more := [];
      assert run + [] == run;
      EndsThrough(c, s, run, i, want, from);
    } else {
      OneMorePass(c, s, run, i, want, from, g);
      var lab := Step(i, want);
      var rest := FinishAlone(c, s, run + [lab], i, want, from, g);
      var last := After(c, s, run + [lab] + rest);
      MovesCompose(now, After(c, s, run + [lab]), last, i);
      Joined(c, s, run, [lab], rest, last, g);
      more := [lab] + rest;
    }
  }

  // ---------------------------------------------------------------------------
  // From arrival to the lookup
  // ---------------------------------------------------------------------------

  /** A mutating request that the plane lets in. */
  ghost predicate LetIn(c: Config, req: Request)
    requires Configured(c)
  {
    && Mutating(req) && req.key.Some? && !c.readOnly
    && Holds(c, req, RoleFor(RouteOf(req.verb, req.path)).value)
  }

  /** Thread `t` as it stands before reading the clock. */
  predicate AtTheDoor(c: Config, t: Thread) {
    && t.held == [] && t.answer.Waiting? && Mutating(t.req) && t.req.key.Some?
    && t.code == RouteCode(c, t.req, RouteOf(t.req.verb, t.req.path))
  }

  lemma LetInIsAtTheDoor(c: Config, req: Request)
    requires Configured(c)
    ensures LetIn(c, req) <==> AtTheDoor(c, Dispatch(c, req))
    ensures LetIn(c, req) ==> Dispatch(c, req).req == req
  {
    DispatchCases(c, req);
    if LetIn(c, req) {
      assert req.verb.POST?;
    }
  }

  const OPENING: Code := [Do(Stamp), Acquire(CacheLock), Do(Lookup), Release(CacheLock)]

  predicate Opens(t: Thread) {
    t.held == [] && t.answer.Waiting? && t.req.key.Some? && |t.code| >= 4 && t.code[..4] == OPENING
  }

  /** Stamped, and holding the cache with its lookup next. */
  function Holding(t: Thread, clock: nat): Thread
    requires |t.code| >= 2
  {
    t.(code := t.code[2..], stamp := clock, held := [CacheLock])
  }

  /** The next instruction is not for the guards to decide. */
  predicate Undecided(s: State, i: nat) {
    && i < |s.threads| && s.threads[i].code != []
    && (s.threads[i].code[0].Do? ==> s.threads[i].code[0].op.Stamp? || s.threads[i].code[0].op.Lookup?)
  }

  lemma FirstTwoSteps(c: Config, s: State, i: nat, o: Outcome)
    requires i < |s.threads| && Opens(s.threads[i]) && s.owner == map[] && o.Pass?
    ensures Enabled(s, Step(i, o)) && Undecided(s, i)
    ensures var s1 := ThreadStep(c, s, i, o);
            && Enabled(s1, Step(i, o)) && Undecided(s1, i)
            && ThreadStep(c, s1, i, o)
               == s.(owner := map[CacheLock := i], threads := s.threads[i := Holding(s.threads[i], s.clock)])
  {
    var t := s.threads[i];
    assert t.code[0] == t.code[..4][0] && t.code[1] == t.code[..4][1];
    var t1 := t.(code := t.code[1..], stamp := s.clock);
    var s1 := s.(threads := s.threads[i := t1]);
    assert ThreadStep(c, s, i, o) == s1;
    assert t1.code[0] == Acquire(CacheLock) && t1.code[1..] == t.code[2..];
    var t2 := Holding(t, s.clock);
    assert [] + [CacheLock] == [CacheLock] && map[][CacheLock := i] == map[CacheLock := i];
    assert s1.threads[i := t2] == s.threads[i := t2];
  }

  /** The thread after a lookup that found nothing live. */
  function Opened(t: Thread, clock: nat): Thread
    requires |t.code| >= 4
  {
    t.(code := t.code[4..], stamp := clock, begun := clock)
  }

  /** The thread after a lookup that found its own hash. */
  function Repeated(t: Thread, clock: nat, body: string): Thread {
    t.(code := [], stamp := clock, answer := Replayed(200, body))
  }

  /** The plane after the cache was pruned by thread `i`, which is now `t`. */
  function Pruned(s: State, i: nat, t: Thread): State
    requires i < |s.threads|
  {
    s.(data := s.data.(cache := Live(s.data.cache, s.clock)), threads := s.threads[i := t])
  }

  lemma MissSteps(c: Config, s: State, s2: State, i: nat, o: Outcome)
    requires i < |s.threads| && Opens(s.threads[i]) && s.owner == map[] && o.Pass?
    requires s2 == s.(owner := map[CacheLock := i], threads := s.threads[i := Holding(s.threads[i], s.clock)])
    requires s.threads[i].req.key.value !in Live(s.data.cache, s.clock)
    ensures Enabled(s2, Step(i, o)) && Undecided(s2, i)
    ensures var s3 := ThreadStep(c, s2, i, o);
            && Enabled(s3, Step(i, o)) && Undecided(s3, i)
            && ThreadStep(c, s3, i, o) == Pruned(s, i, Opened(s.threads[i], s.clock))
  {
    var t, t2 := s.threads[i], s2.threads[i];
    assert t.code[2] == t.code[..4][2] && t.code[3] == t.code[..4][3];
    assert t2.code[0] == Do(Lookup) && t2.code[1..] == t.code[3..];
    var t3 := t2.(code := t.code[3..], begun := s.clock);
    var s3 := s2.(data := s.data.(cache := Live(s.data.cache, s.clock)), threads := s.threads[i := t3]);
    assert s2.threads[i := t3] == s.threads[i := t3];
    assert ThreadStep(c, s2, i, o) == s3;
    assert t3.code[0] == Release(CacheLock) && t3.code[1..] == t.code[4..];
    assert map[CacheLock := i] - {CacheLock} == map[] && t3.held[..0] == [];
    assert s3.threads[i := Opened(t, s.clock)] == s.threads[i := Opened(t, s.clock)];
  }

  lemma HitSteps(c: Config, s: State, s2: State, i: nat, o: Outcome)
    requires i < |s.threads| && Opens(s.threads[i]) && s.owner == map[] && o.Pass?
    requires s2 == s.(owner := map[CacheLock := i], threads := s.threads[i := Holding(s.threads[i], s.clock)])
    requires s.threads[i].req.key.value in Live(s.data.cache, s.clock)
    requires s.data.cache[s.threads[i].req.key.value].hash == c.sha(s.threads[i].req.body)
    ensures Enabled(s2, Step(i, o)) && Undecided(s2, i)
    ensures var s3 := ThreadStep(c, s2, i, o);
            && Enabled(s3, Step(i, o)) && Undecided(s3, i)
            && ThreadStep(c, s3, i, o)
               == Pruned(s, i, Repeated(s.threads[i], s.clock, s.data.cache[s.threads[i].req.key.value].body))
  {
    var t, t2 := s.threads[i], s2.threads[i];
    var body := s.data.cache[t.req.key.value].body;
    assert t.code[2] == t.code[..4][2];
    assert t2.code[0] == Do(Lookup);
    assert t2.held[..0] == [] && Unwind([CacheLock]) == [Release(CacheLock)];
    var t3 := t2.(code := [Release(CacheLock)], answer := Replayed(200, body));
    var s3 := s2.(data := s.data.(cache := Live(s.data.cache, s.clock)), threads := s.threads[i := t3]);
    assert s2.threads[i := t3] == s.threads[i := t3];
    assert ThreadStep(c, s2, i, o) == s3;
    assert t3.code[1..] == [];
    assert map[CacheLock := i] - {CacheLock} == map[];
    var t4 := Repeated(t, s.clock, body);
    assert s3.threads[i := t4] == s.threads[i := t4];
  }

  /** The thread after a lookup that found another hash under its key. */
  function Clashed(t: Thread, clock: nat): Thread {
    t.(code := [], stamp := clock, answer := Refused(409))
  }

  lemma ClashSteps(c: Config, s: State, s2: State, i: nat, o: Outcome)
    requires i < |s.threads| && Opens(s.threads[i]) && s.owner == map[] && o.Pass?
    requires s2 == s.(owner := map[CacheLock := i], threads := s.threads[i := Holding(s.threads[i], s.clock)])
    requires s.threads[i].req.key.value in Live(s.data.cache, s.clock)
    requires s.data.cache[s.threads[i].req.key.value].hash != c.sha(s.threads[i].req.body)
    ensures Enabled(s2, Step(i, o)) && Undecided(s2, i)
    ensures var s3 := ThreadStep(c, s2, i, o);
            && Enabled(s3, Step(i, o)) && Undecided(s3, i)
            && ThreadStep(c, s3, i, o) == Pruned(s, i, Clashed(s.threads[i], s.clock))
  {
    var t, t2 := s.threads[i], s2.threads[i];
    assert t.code[2] == t.code[..4][2];
    assert t2.code[0] == Do(Lookup);
    assert t2.held[..0] == [] && Unwind([CacheLock]) == [Release(CacheLock)];
    var t3 := t2.(code := [Release(CacheLock)], answer := Refused(409));
    var s3 := s2.(data := s.data.(cache := Live(s.data.cache, s.clock)), threads := s.threads[i := t3]);
    assert s2.threads[i := t3] == s.threads[i := t3];
    assert ThreadStep(c, s2, i, o) == s3;
    assert t3.code[1..] == [];
    assert map[CacheLock := i] - {CacheLock} == map[];
    assert s3.threads[i := Clashed(t, s.clock)] == s.threads[i := Clashed(t, s.clock)];
  }

  lemma UndecidedIsLawful(g: Guards, base: nat, s: State, i: nat, o: Outcome)
    requires Undecided(s, i)
    ensures Lawful(g, base, s, Step(i, o))
  {
  }

  lemma OnceMore(c: Config, s: State, run: seq<Label>, lab: Label, now: State, next: State, g: Guards)
    requires Configured(c) && IsRun(c, s, run) && After(c, s, run) == now && Obeys(c, s, run, g)
    requires lab.Step? && Undecided(now, lab.i) && Enabled(now, lab) && Apply(c, now, lab) == next
    ensures IsRun(c, s, run + [lab]) && After(c, s, run + [lab]) == next && Obeys(c, s, run + [lab], g)
  {
    UndecidedIsLawful(g, |s.data.store|, now, lab.i, lab.o);
    ObeysExtends(c, s, run, lab, g);
  }

  lemma TwiceMore(c: Config, s: State, run: seq<Label>, lab: Label, now: State, next: State, last: State, g: Guards)
    requires Configured(c) && IsRun(c, s, run) && After(c, s, run) == now && Obeys(c, s, run, g)
    requires lab.Step? && Undecided(now, lab.i) && Enabled(now, lab) && Apply(c, now, lab) == next
    requires Undecided(next, lab.i) && Enabled(next, lab) && Apply(c, next, lab) == last
    ensures IsRun(c, s, run + [lab, lab]) && After(c, s, run + [lab, lab]) == last && Obeys(c, s, run + [lab, lab], g)
  {
    OnceMore(c, s, run, lab, now, next, g);
    OnceMore(c, s, run + [lab], lab, next, last, g);
    assert run + [lab, lab] == run + [lab] + [lab];
  }

  /** Four steps of one thread, through `s2` to `last`, none of them for the guards to decide. */
  lemma FourMore(c: Config, s: State, run: seq<Label>, step: Label,
                 now: State, s1: State, s2: State, s3: State, last: State, g: Guards)
    requires Configured(c) && IsRun(c, s, run) && After(c, s, run) == now && step.Step? && Obeys(c, s, run, g)
    requires Enabled(now, step) && Apply(c, now, step) == s1 && Enabled(s1, step) && Apply(c, s1, step) == s2
    requires Enabled(s2, step) && Apply(c, s2, step) == s3 && Enabled(s3, step) && Apply(c, s3, step) == last
    requires Undecided(now, step.i) && Undecided(s1, step.i) && Undecided(s2, step.i) && Undecided(s3, step.i)
    ensures var more := [step, step] + [step, step];
            && IsRun(c, s, run + more) && After(c, s, run + more) == last && OnlySteps(more)
            && Obeys(c, s, run + more, g)
  {
    TwiceMore(c, s, run, step, now, s1, s2, g);
    TwiceMore(c, s, run + [step, step], step, s2, s3, last, g);
    assert run + ([step, step] + [step, step]) == run + [step, step] + [step, step];
  }

  /** Reading the clock and looking up alone, when there is no live record under the key. */
  lemma LookUpAndMiss(c: Config, s: State, run: seq<Label>, i: nat, o: Outcome, now: State, g: Guards)
      returns (more: seq<Label>)
    requires Configured(c) && IsRun(c, s, run) && After(c, s, run) == now && Obeys(c, s, run, g)
    requires i < |now.threads| && Opens(now.threads[i]) && now.owner == map[] && o.Pass?
    requires now.threads[i].req.key.value !in Live(now.data.cache, now.clock)
    ensures IsRun(c, s, run + more) && Obeys(c, s, run + more, g) && OnlySteps(more)
    ensures After(c, s, run + more) == Pruned(now, i, Opened(now.threads[i], now.clock))
  {
    FirstTwoSteps(c, now, i, o);
    var s1 := ThreadStep(c, now, i, o);
    var s2 := ThreadStep(c, s1, i, o);
    MissSteps(c, now, s2, i, o);
    var s3 := ThreadStep(c, s2, i, o);
    var step := Step(i, o);
    FourMore(c, s, run, step, now, s1, s2, s3, ThreadStep(c, s3, i, o), g);
    more := [step, step] + [step, step];
  }

  /** The same when there is one with the request's own hash. */
  lemma LookUpAndHit(c: Config, s: State, run: seq<Label>, i: nat, o: Outcome, now: State, g: Guards)
      returns (more: seq<Label>)
    requires Configured(c) && IsRun(c, s, run) && After(c, s, run) == now && Obeys(c, s, run, g)
    requires i < |now.threads| && Opens(now.threads[i]) && now.owner == map[] && o.Pass?
    requires now.threads[i].req.key.value in Live(now.data.cache, now.clock)
    requires now.data.cache[now.threads[i].req.key.value].hash == c.sha(now.threads[i].req.body)
    ensures IsRun(c, s, run + more) && Obeys(c, s, run + more, g) && OnlySteps(more)
    ensures var t := now.threads[i];
            After(c, s, run + more) == Pruned(now, i, Repeated(t, now.clock, now.data.cache[t.req.key.value].body))
  {
    FirstTwoSteps(c, now, i, o);
    var s1 := ThreadStep(c, now, i, o);
    var s2 := ThreadStep(c, s1, i, o);
    HitSteps(c, now, s2, i, o);
    var s3 := ThreadStep(c, s2, i, o);
    var step := Step(i, o);
    FourMore(c, s, run, step, now, s1, s2, s3, ThreadStep(c, s3, i, o), g);
    more := [step, step] + [step, step];
  }

  /** The same when there is one with another hash. */
  lemma LookUpAndClash(c: Config, s: State, run: seq<Label>, i: nat, o: Outcome, now: State, g: Guards)
      returns (more: seq<Label>)
    requires Configured(c) && IsRun(c, s, run) && After(c, s, run) == now && Obeys(c, s, run, g)
    requires i < |now.threads| && Opens(now.threads[i]) && now.owner == map[] && o.Pass?
    requires now.threads[i].req.key.value in Live(now.data.cache, now.clock)
    requires now.data.cache[now.threads[i].req.key.value].hash != c.sha(now.threads[i].req.body)
    ensures IsRun(c, s, run + more) && Obeys(c, s, run + more, g) && OnlySteps(more)
    ensures After(c, s, run + more) == Pruned(now, i, Clashed(now.threads[i], now.clock))
  {
    FirstTwoSteps(c, now, i, o);
    var s1 := ThreadStep(c, now, i, o);
    var s2 := ThreadStep(c, s1, i, o);
    ClashSteps(c, now, s2, i, o);
    var s3 := ThreadStep(c, s2, i, o);
    var step := Step(i, o);
    FourMore(c, s, run, step, now, s1, s2, s3, ThreadStep(c, s3, i, o), g);
    more := [step, step] + [step, step];
  }

  lemma NoSecondLookup(c: Config, t: Thread)
    requires AtTheDoor(c, t)
    ensures Opens(t) && Do(Lookup) !in t.code[4..]
  {
    var r := RouteOf(t.req.verb, t.req.path);
    RouteCodePhased(c, t.req, r);
    assert t.code[2] == Do(Lookup);
    var from2 := t.code[2..];
    PhasedTail(0, t.code);
    PhasedTail(0, t.code[1..]);
    assert t.code[1..][1..] == from2 && from2[1..] == t.code[3..];
    if Do(Lookup) in t.code[4..] {
      assert t.code[4..] == t.code[3..][1..];
      HeadIsLast(from2, Do(Lookup));
    }
  }

  // ---------------------------------------------------------------------------
  // A whole request
  // ---------------------------------------------------------------------------

  lemma AfterOpening(handler: Code, statuses: set<nat>)
    ensures |Idempotent(handler, statuses)| >= 4
    ensures Idempotent(handler, statuses)[4..] == handler + [Do(Reply(statuses))] + Region(CacheLock, Remember)
  {
    var opening: Code := [Do(Stamp)] + Region(CacheLock, Lookup);
    var close := handler + [Do(Reply(statuses))] + Region(CacheLock, Remember);
    assert |opening| == 4 && Idempotent(handler, statuses) == opening + close;
  }

  lemma AfterTheLookup(c: Config, t: Thread)
    requires AtTheDoor(c, t)
    ensures var r := RouteOf(t.req.verb, t.req.path);
            && |t.code| >= 4
            && t.code[4..] == Handler(c, t.req, r) + [Do(Reply(Statuses(r)))] + Region(CacheLock, Remember)
  {
    var r := RouteOf(t.req.verb, t.req.path);
    AfterOpening(Handler(c, t.req, r), Statuses(r));
  }

  /** Instructions before and after that do not touch the register change nothing about how it is written. */
  lemma WritesOnceWithin(c: Config, req: Request, before: Code, work: Code, after: Code)
    requires Mutating(req) && WritesOnce(c, req, work)
    requires forall ins | ins in before || ins in after :: !Appends(ins) && ins != Do(Look(StoreLock))
    ensures WritesOnce(c, req, before + work + after)
  {
    var code := before + work + after;
    forall j, k | 0 <= j < k < |code| && Appends(code[j]) ensures code[k] != Do(Look(StoreLock)) {
      if code[k] == Do(Look(StoreLock)) {
        InTheMiddle(before, work, after, j);
        InTheMiddle(before, work, after, k);
      }
    }
  }

  lemma InTheMiddle(before: Code, work: Code, after: Code, k: nat)
    requires k < |before + work + after|
    ensures var code := before + work + after;
            || code[k] in before || code[k] in after
            || (|before| <= k < |before| + |work| && code[k] == work[k - |before|])
  {
  }

  /** After the write: its lock, then the evidence chain and the deny-list. */
  function AfterWrite(act: Act, hasFeed: bool): Code {
    [Release(StoreLock)] + Region(EvidenceLock, Record(act)) + if hasFeed then Region(FeedLock, Publish(act)) else []
  }

  lemma AfterWriteIsQuiet(act: Act, hasFeed: bool, ins: Instr)
    requires ins in AfterWrite(act, hasFeed)
    ensures !Appends(ins) && ins != Do(Look(StoreLock))
  {
    assert || ins == Release(StoreLock)
           || ins in Region(EvidenceLock, Record(act)) || ins in Region(FeedLock, Publish(act));
  }

  lemma ContainWrites(c: Config, req: Request, core: Code, act: Act, hasFeed: bool)
    requires Mutating(req) && WritesOnce(c, req, core)
    ensures WritesOnce(c, req, [Acquire(StoreLock)] + core + AfterWrite(act, hasFeed))
  {
    forall ins <- AfterWrite(act, hasFeed) ensures !Appends(ins) && ins != Do(Look(StoreLock)) {
      AfterWriteIsQuiet(act, hasFeed, ins);
    }
    WritesOnceWithin(c, req, [Acquire(StoreLock)], core, AfterWrite(act, hasFeed));
  }

  lemma ContainShape(act: Act, hasFeed: bool)
    ensures Contain(act, hasFeed) == [Acquire(StoreLock)] + [Do(Commit(act))] + AfterWrite(act, hasFeed)
  {
  }

  /** Where the write is in the work of a route. */
  lemma WorkWrites(c: Config, req: Request)
    requires Mutating(req)
    ensures var work := Work(c, req, RouteOf(req.verb, req.path));
            Writing(c, req) in work && WritesOnce(c, req, work)
  {
    var r, w := RouteOf(req.verb, req.path), Writing(c, req);
    var work, a := Work(c, req, r), ActOf(c, req);
    if ByIssuer(req) {
      var before, after := [Acquire(StoreLock), Acquire(EvidenceLock)], [Release(EvidenceLock), Release(StoreLock)];
      WritesOnceWithin(c, req, before, [w], after);
      assert work == before + [w] + after;
    } else if r.Activation? {
      WritesOnceWithin(c, req, [Acquire(StoreLock)], [w], [Release(StoreLock)]);
      assert work == [Acquire(StoreLock)] + [w] + [Release(StoreLock)];
    } else if r.RevokeConnection? {
      RevokeWrites(c, req, a);
    } else {
      var listed := c.hasFeed && r.QuarantineParty?;
      ContainShape(a, listed);
      ContainWrites(c, req, [w], a, listed);
      assert work[1] == w;
    }
  }

  lemma RevokeWrites(c: Config, req: Request, a: Act)
    requires RouteOf(req.verb, req.path).RevokeConnection? && a == ActOf(c, req)
    ensures var work := Region(StoreLock, Look(StoreLock)) + Contain(a, c.hasFeed);
            Do(Commit(a)) in work && WritesOnce(c, req, work)
  {
    var core := [Do(Look(StoreLock)), Release(StoreLock), Acquire(StoreLock), Do(Commit(a))];
    var work := Region(StoreLock, Look(StoreLock)) + Contain(a, c.hasFeed);
    assert core[3] == Writing(c, req) && core[3] in core;
    ContainShape(a, c.hasFeed);
    ContainWrites(c, req, core, a, c.hasFeed);
    assert work == [Acquire(StoreLock)] + core + AfterWrite(a, c.hasFeed);
  }

  /** What is left once the lookup has missed. */
  function Rest(c: Config, req: Request): Code
    requires Mutating(req)
  {
    var r := RouteOf(req.verb, req.path);
    [Do(Check)] + Work(c, req, r) + ([Do(Reply(Statuses(r)))] + Region(CacheLock, Remember))
  }

  lemma BehindIsRest(c: Config, t: Thread)
    requires AtTheDoor(c, t)
    ensures |t.code| >= 4 && t.code[4..] == Rest(c, t.req)
  {
    AfterTheLookup(c, t);
  }

  lemma CloseIsQuiet(statuses: set<nat>, ins: Instr)
    requires ins in [Do(Reply(statuses))] + Region(CacheLock, Remember)
    ensures !Appends(ins) && ins != Do(Look(StoreLock))
  {
  }

  lemma RestWrites(c: Config, req: Request)
    requires Mutating(req)
    ensures WritesOnce(c, req, Rest(c, req)) && Writing(c, req) in Rest(c, req)
  {
    var r := RouteOf(req.verb, req.path);
    var work, close := Work(c, req, r), [Do(Reply(Statuses(r)))] + Region(CacheLock, Remember);
    WorkWrites(c, req);
    forall ins <- close ensures !Appends(ins) && ins != Do(Look(StoreLock)) { CloseIsQuiet(Statuses(r), ins); }
    WritesOnceWithin(c, req, [Do(Check)], work, close);
  }

  lemma RestReplies(c: Config, req: Request)
    requires Mutating(req)
    ensures Do(Remember) in Rest(c, req)
    ensures forall ins <- Rest(c, req) ::
              ins.Do? && ins.op.Reply? ==> ins.op.statuses == Statuses(RouteOf(req.verb, req.path))
  {
    var r := RouteOf(req.verb, req.path);
    var close := [Do(Reply(Statuses(r)))] + Region(CacheLock, Remember);
    assert close[2] == Do(Remember) && close[2] in close;
    forall ins <- Rest(c, req) | ins.Do? && ins.op.Reply? ensures ins.op.statuses == Statuses(r) {
      if ins in Work(c, req, r) { WorkOps(c, req, r, ins); }
    }
  }

  lemma BehindTheDoor(c: Config, t: Thread)
    requires AtTheDoor(c, t)
    ensures |t.code| >= 4 && WritesOnce(c, t.req, t.code[4..]) && Writing(c, t.req) in t.code[4..]
    ensures Do(Remember) in t.code[4..]
    ensures forall ins <- t.code[4..] ::
              ins.Do? && ins.op.Reply? ==> ins.op.statuses == Statuses(RouteOf(t.req.verb, t.req.path))
  {
    BehindIsRest(c, t);
    RestWrites(c, t.req);
    RestReplies(c, t.req);
  }

  lemma OpenedIsOnCourse(c: Config, d: Data, i: nat, t: Thread, clock: nat, want: Outcome)
    requires AtTheDoor(c, t) && want.Pass? && want.status in Statuses(RouteOf(t.req.verb, t.req.path))
    ensures |t.code| >= 4 && Begun(Opened(t, clock)) && OnCourse(c, d.store, d, i, Opened(t, clock), want)
  {
    NoSecondLookup(c, t);
    BehindTheDoor(c, t);
  }

  /** Thread `i` alone moved, at one clock reading; of the keys only its own may have come in. */
  ghost predicate ServedAlone(now: State, next: State, i: nat) {
    && i < |now.threads| && |next.threads| == |now.threads| && next.clock == now.clock
    && next.threads == now.threads[i := next.threads[i]]
    && next.threads[i].req == now.threads[i].req
    && next.threads[i].stamp == next.threads[i].begun == now.clock
    && (forall k :: k in next.data.cache && now.threads[i].req.key != Some(k) ==> k in Live(now.data.cache, now.clock))
  }

  lemma PrunedThenMoved(now: State, middle: State, next: State, i: nat)
    requires i < |now.threads| && |now.threads[i].code| >= 4
    requires middle == Pruned(now, i, Opened(now.threads[i], now.clock)) && OnlyMoved(middle, next, i)
    ensures ServedAlone(now, next, i)
  {
    assert middle.threads[i := next.threads[i]] == now.threads[i := next.threads[i]];
  }

  /** Thread `i` waits at the door of a quiet plane with no live record under its key. */
  ghost predicate Ready(c: Config, now: State, i: nat) {
    && i < |now.threads| && AtTheDoor(c, now.threads[i]) && now.owner == map[]
    && now.threads[i].req.key.value !in Live(now.data.cache, now.clock)
  }

  lemma ComeIn(c: Config, s: State, run: seq<Label>, i: nat, want: Outcome, now: State, g: Guards)
      returns (look: seq<Label>)
    requires Configured(c) && IsRun(c, s, run) && After(c, s, run) == now && Ready(c, now, i) && Obeys(c, s, run, g)
    requires want.Pass? && want.status in Statuses(RouteOf(now.threads[i].req.verb, now.threads[i].req.path))
    ensures |now.threads[i].code| >= 4 && IsRun(c, s, run + look) && Obeys(c, s, run + look, g) && OnlySteps(look)
    ensures After(c, s, run + look) == Pruned(now, i, Opened(now.threads[i], now.clock))
    ensures Unhindered(c, now.data.store, After(c, s, run + look), i, want)
  {
    NoSecondLookup(c, now.threads[i]);
    look := LookUpAndMiss(c, s, run, i, want, now, g);
    OpenedIsOnCourse(c, Pruned(now, i, Opened(now.threads[i], now.clock)).data, i, now.threads[i], now.clock, want);
  }

  /** Such a request can be served alone in any way the guards allow. */
  lemma ServeOne(c: Config, s: State, run: seq<Label>, i: nat, want: Outcome, g: Guards) returns (more: seq<Label>)
    requires Configured(c) && Initial(s) && IsRun(c, s, run) && Ready(c, After(c, s, run), i) && Obeys(c, s, run, g)
    requires |s.data.store| <= |After(c, s, run).data.store|
    requires var now := After(c, s, run);
             Granted(g, Since(|s.data.store|, now.data), now.clock, now.threads[i].req, want)
    ensures IsRun(c, s, run + more) && Obeys(c, s, run + more, g) && OnlySteps(more)
    ensures ServedAlone(After(c, s, run), After(c, s, run + more), i)
    ensures Through(c, After(c, s, run).data.store, After(c, s, run + more), i, want)
  {
    var now := After(c, s, run);
    var look := ComeIn(c, s, run, i, want, now, g);
    var rest := FinishAlone(c, s, run + look, i, want, now.data.store, g);
    var last := After(c, s, run + look + rest);
    PrunedThenMoved(now, After(c, s, run + look), last, i);
    Joined(c, s, run, look, rest, last, g);
    more := look + rest;
  }

  lemma ArrivesAtTheDoor(c: Config, s: State, run: seq<Label>, req: Request, g: Guards)
    requires Configured(c) && IsRun(c, s, run) && LetIn(c, req) && Obeys(c, s, run, g)
    ensures IsRun(c, s, run + [Arrive(req)]) && Obeys(c, s, run + [Arrive(req)], g)
    ensures var now, next := After(c, s, run), After(c, s, run + [Arrive(req)]);
            && next == now.(threads := now.threads + [next.threads[|now.threads|]])
            && AtTheDoor(c, next.threads[|now.threads|]) && next.threads[|now.threads|].req == req
  {
    LetInIsAtTheDoor(c, req);
    ObeysExtends(c, s, run, Arrive(req), g);
  }

  /** Nothing in flight. */
  predicate Quiet(s: State) {
    s.owner == map[] && forall t <- s.threads :: t.code == []
  }

  /** The plane once `req` came to it, alone, and was served as wanted. */
  ghost predicate NewlyServed(c: Config, now: State, next: State, req: Request, want: Outcome) {
    && Mutating(req) && req.key.Some? && want.Pass?
    && Quiet(next) && |next.threads| == |now.threads| + 1 && next.threads[..|now.threads|] == now.threads
    && next.clock == now.clock
    && next.data.store == now.data.store + Copies(Entry(ActOf(c, req), By(|now.threads|)), CountOf(req, want))
    && (var t := next.threads[|now.threads|];
        t.req == req && t.stamp == t.begun == now.clock && t.answer == Served(want.status, want.body))
    && req.key.value in next.data.cache
    && next.data.cache[req.key.value] == Remembered(now.clock + IDEMPOTENCY_TTL_SECS, c.sha(req.body), want.body)
    && (forall k :: k in next.data.cache && k != req.key.value ==> k in Live(now.data.cache, now.clock))
  }

  lemma ServedIsNew(c: Config, now: State, middle: State, next: State, req: Request, want: Outcome)
    requires Quiet(now) && |middle.threads| == |now.threads| + 1
    requires middle == now.(threads := now.threads + [middle.threads[|now.threads|]])
    requires middle.threads[|now.threads|].req == req
    requires ServedAlone(middle, next, |now.threads|) && Through(c, now.data.store, next, |now.threads|, want)
    ensures NewlyServed(c, now, next, req, want)
  {
    var n := |now.threads|;
    assert next.threads[..n] == now.threads;
    assert forall i :: 0 <= i < n ==> next.threads[i] == now.threads[i] && now.threads[i] in now.threads;
  }

  /** A request that finds the plane quiet and its key unused can be served in any way the guards allow. */
  lemma ServeNew(c: Config, s: State, run: seq<Label>, req: Request, want: Outcome, g: Guards)
      returns (steps: seq<Label>)
    requires Configured(c) && Initial(s) && IsRun(c, s, run) && Quiet(After(c, s, run)) && Obeys(c, s, run, g)
    requires LetIn(c, req) && req.key.value !in Live(After(c, s, run).data.cache, After(c, s, run).clock)
    requires |s.data.store| <= |After(c, s, run).data.store|
    requires Granted(g, Since(|s.data.store|, After(c, s, run).data), After(c, s, run).clock, req, want)
    ensures IsRun(c, s, run + [Arrive(req)] + steps) && Obeys(c, s, run + [Arrive(req)] + steps, g)
    ensures OnlySteps(steps)
    ensures NewlyServed(c, After(c, s, run), After(c, s, run + [Arrive(req)] + steps), req, want)
  {
    var now := After(c, s, run);
    ArrivesAtTheDoor(c, s, run, req, g);
    var middle := After(c, s, run + [Arrive(req)]);
    steps := ServeOne(c, s, run + [Arrive(req)], |now.threads|, want, g);
    ServedIsNew(c, now, middle, After(c, s, run + [Arrive(req)] + steps), req, want);
  }
}
