/** The idempotency cache over every interleaving: what a replay is, and how far apart two runs are. */
module PlaneIdempotency {
  import opened Plane
  import opened PlanePrograms
  import opened PlaneContainment
  import opened Wrappers

  predicate Success(status: nat) {
    200 <= status < 300
  }

  /** After its reply a program only remembers. */
  predicate Closing(code: Code) {
    forall j, k :: 0 <= j < k < |code| && code[j].Do? && code[j].op.Reply? && code[k].Do? ==> code[k].op.Remember?
  }

  predicate OnlyRemembers(code: Code) {
    forall ins <- code :: ins.Do? ==> ins.op.Remember?
  }

  /** What the cache relies on from one thread. */
  ghost predicate Honest(t: Thread) {
    && Phased(0, t.code) && Closing(t.code)
    && (forall ins <- t.code :: ins.Do? && ins.op.Reply? ==> forall st <- ins.op.statuses :: Success(st))
    && (forall ins <- t.code :: ins.Do? && (ins.op.Lookup? || ins.op.Remember?) ==> t.req.key.Some? && Mutating(t.req))
    && (Turned(t) ==> forall ins <- t.code :: ins.Release?)
    && (t.answer.Served? ==> Success(t.answer.status) && OnlyRemembers(t.code))
    && (t.answer.Waiting? && Do(Remember) in t.code ==> exists ins <- t.code :: ins.Do? && ins.op.Reply?)
    && (t.answer.Waiting? && Mutating(t.req) ==> Do(Remember) in t.code)
    && (Do(Stamp) in t.code ==> Do(Lookup) in t.code)
  }

  lemma ClosingShape(before: Code, statuses: set<nat>, after: Code)
    requires forall ins <- before :: !(ins.Do? && ins.op.Reply?)
    requires OnlyRemembers(after)
    ensures Closing(before + [Do(Reply(statuses))] + after)
  {
    var code := before + [Do(Reply(statuses))] + after;
    assert forall m :: 0 <= m < |before| ==> code[m] == before[m] && before[m] in before;
    forall j, k | 0 <= j < k < |code| && code[j].Do? && code[j].op.Reply? && code[k].Do?
      ensures code[k].op.Remember?
    {
      assert code[k] == after[k - |before| - 1];
      assert code[k] in after;
    }
  }

  /** The shape of every program run behind the cache. */
  lemma KeyedIsHonest(req: Request, before: Code, statuses: set<nat>)
    requires forall ins <- before :: !(ins.Do? && (ins.op.Reply? || ins.op.Remember?))
    requires Do(Lookup) in before && req.key.Some? && Mutating(req) && forall st <- statuses :: Success(st)
    requires Phased(0, before + [Do(Reply(statuses))] + Region(CacheLock, Remember))
    ensures Honest(Started(req, before + [Do(Reply(statuses))] + Region(CacheLock, Remember)))
  {
    var after := Region(CacheLock, Remember);
    var code := before + [Do(Reply(statuses))] + after;
    ClosingShape(before, statuses, after);
    assert Do(Reply(statuses)) in code && Do(Remember) in after && Do(Remember) in code && Do(Lookup) in code;
    forall ins <- code ensures ins.Do? && ins.op.Reply? ==> ins.op.statuses == statuses {
      if ins in before { }
    }
  }

  lemma HandlerIsSilent(c: Config, req: Request, r: Route, ins: Instr)
    requires Mutates(r) && ins in Handler(c, req, r)
    ensures !(ins.Do? && (ins.op.Reply? || ins.op.Remember?))
  {
    if ins in Work(c, req, r) { WorkOps(c, req, r, ins); }
  }

  lemma MutatingIsHonest(c: Config, req: Request, r: Route)
    requires Mutates(r) && RouteOf(req.verb, req.path) == r && req.key.Some?
    ensures Honest(Started(req, RouteCode(c, req, r)))
  {
    var opening: Code := [Do(Stamp)] + Region(CacheLock, Lookup);
    var handler: Code := Handler(c, req, r);
    RouteCodePhased(c, req, r);
    assert Do(Lookup) in opening;
    forall ins <- opening + handler ensures !(ins.Do? && (ins.op.Reply? || ins.op.Remember?)) {
      if ins in handler { HandlerIsSilent(c, req, r, ins); }
    }
    assert RouteCode(c, req, r) == opening + handler + [Do(Reply(Statuses(r)))] + Region(CacheLock, Remember);
    KeyedIsHonest(req, opening + handler, Statuses(r));
  }

  lemma QuietIsHonest(req: Request, before: Code, statuses: set<nat>)
    requires forall ins <- before ::
               !(ins.Do? && (ins.op.Reply? || ins.op.Stamp? || ins.op.Lookup? || ins.op.Remember?))
    requires Phased(0, before + [Do(Reply(statuses))]) && !Mutating(req) && forall st <- statuses :: Success(st)
    ensures Honest(Started(req, before + [Do(Reply(statuses))]))
  {
    ClosingShape(before, statuses, []);
    assert before + [Do(Reply(statuses))] + [] == before + [Do(Reply(statuses))];
  }

  lemma ReadIsHonest(c: Config, req: Request, r: Route)
    requires RoleFor(r).Some? && !Mutates(r) && RouteOf(req.verb, req.path) == r
    ensures Honest(Started(req, RouteCode(c, req, r)))
  {
    RouteCodePhased(c, req, r);
    if r.PortalPage? {
      QuietIsHonest(req, Under(StoreLock, [Do(Look(StoreLock))]
                    + if req.cidAsked then Region(EvidenceLock, Look(EvidenceLock)) else []), {200});
    } else if r.AckSet? {
      QuietIsHonest(req, [Do(Check)] + Region(AckLock, Acknowledge), {204});
    } else if r.MediatorStatus? {
      QuietIsHonest(req, Region(StoreLock, Look(StoreLock)) + Region(AckLock, Look(AckLock)), {200});
    } else if r.Revocations? {
      QuietIsHonest(req, Region(FeedLock, Look(FeedLock)), {200});
    } else if r.AuditHead? {
      QuietIsHonest(req, Region(EvidenceLock, Look(EvidenceLock)), {200});
    } else {
      QuietIsHonest(req, Region(StoreLock, Look(StoreLock)), {200});
    }
  }

  lemma OpenPagesAreHonest(c: Config, req: Request)
    requires !Mutating(req)
    ensures Honest(Started(req, [Do(Check), Do(Reply({200}))]))
    ensures Honest(Started(req, MetricsCode(c.hasFeed)))
  {
    var scrape := Under(StoreLock, Scrape(c.hasFeed)) + Region(AckLock, Look(AckLock));
    assert [Do(Check), Do(Reply({200}))] == [Do(Check)] + [Do(Reply({200}))];
    ReplyLast([Do(Check)], {200});
    ReplyLast(scrape, {200});
    QuietIsHonest(req, [Do(Check)], {200});
    QuietIsHonest(req, scrape, {200});
  }

  lemma EndedIsHonest(req: Request, a: Answer)
    requires a.Refused? || (a.Served? && Success(a.status))
    ensures Honest(Ended(req, a))
  {
  }

  lemma DispatchIsHonest(c: Config, req: Request)
    requires Configured(c)
    ensures Honest(Dispatch(c, req))
    ensures Dispatch(c, req).req == req && !Dispatch(c, req).answer.Replayed?
    ensures Mutating(req) ==> !Dispatch(c, req).answer.Served?
  {
    DispatchCases(c, req);
    var t, r := Dispatch(c, req), RouteOf(req.verb, req.path);
    if !Mutates(r) && (t == Started(req, [Do(Check), Do(Reply({200}))]) || t == Started(req, MetricsCode(c.hasFeed))) {
      OpenPagesAreHonest(c, req);
    } else if t == Ended(req, t.answer) {
      EndedIsHonest(req, t.answer);
    } else if Mutates(r) {
      MutatingIsHonest(c, req, r);
    } else {
      ReadIsHonest(c, req, r);
    }
  }

  lemma ClosingTail(code: Code)
    requires Closing(code) && code != []
    ensures Closing(code[1..])
    ensures code[0].Do? && code[0].op.Reply? ==> OnlyRemembers(code[1..])
  {
    var rest := code[1..];
    forall j, k | 0 <= j < k < |rest| && rest[j].Do? && rest[j].op.Reply? && rest[k].Do? ensures rest[k].op.Remember? {
      assert rest[j] == code[j + 1] && rest[k] == code[k + 1];
    }
    if code[0].Do? && code[0].op.Reply? {
      forall ins <- rest ensures ins.Do? ==> ins.op.Remember? {
        var k :| 0 <= k < |rest| && rest[k] == ins;
        assert code[k + 1] == ins;
      }
    }
  }

  lemma StoppedIsHonest(t: Thread, a: Answer)
    requires a.Refused? || a.Replayed?
    ensures Honest(Stop(t, a))
  {
    UnwindReleases(t.held);
    Unphased(0, Unwind(t.held));
    assert forall k :: 0 <= k < |Unwind(t.held)| ==> Unwind(t.held)[k] in Unwind(t.held);
  }

  lemma NextIsHonest(t: Thread, t': Thread)
    requires Honest(t) && t.code != [] && t'.code == t.code[1..] && t'.req == t.req
    requires || t'.answer == t.answer
             || (t.code[0].Do? && t.code[0].op.Reply? && t'.answer.Served? && Success(t'.answer.status))
    requires t.code[0].Do? && t.code[0].op.Reply? ==> t'.answer.Served?
    ensures Honest(t')
  {
    PhasedTail(0, t.code);
    ClosingTail(t.code);
    assert t.code == [t.code[0]] + t'.code;
    if t.answer.Waiting? && t.code[0] == Do(Remember) { RememberIsServed(t); }
    if t.code[0] == Do(Lookup) && Do(Stamp) in t'.code { HeadIsLast(t.code, Do(Stamp)); }
    if t'.answer.Waiting? && Do(Remember) in t'.code {
      var ins :| ins in t.code && ins.Do? && ins.op.Reply?;
      assert ins in t'.code;
    }
  }

  lemma OwnStepIsHonest(c: Config, s: State, i: nat, o: Outcome)
    requires Enabled(s, Step(i, o)) && Honest(s.threads[i])
    ensures Honest(ThreadStep(c, s, i, o).threads[i])
  {
    var t, t' := s.threads[i], ThreadStep(c, s, i, o).threads[i];
    assert t.code[0] in t.code;
    if t.code[0].Do? && t' == Stop(t, t'.answer) && (t'.answer.Refused? || t'.answer.Replayed?) {
      StoppedIsHonest(t, t'.answer);
    } else {
      NextIsHonest(t, t');
    }
  }

  // ---------------------------------------------------------------------------
  // Replays
  // ---------------------------------------------------------------------------

  /** Thread `t` is a successful handler run under key `k` whose response was `body`. */
  predicate Answered(c: Config, t: Thread, k: string, hash: seq<bv8>, body: string) {
    && t.req.key == Some(k) && Mutating(t.req) && c.sha(t.req.body) == hash
    && t.answer.Served? && Success(t.answer.status) && t.answer.body == body
  }

  ghost predicate SomeAnswered(c: Config, threads: seq<Thread>, k: string, hash: seq<bv8>, body: string) {
    exists i | 0 <= i < |threads| :: Answered(c, threads[i], k, hash, body)
  }

  ghost predicate CacheIsSound(c: Config, s: State) {
    && AllHonest(s.threads)
    && (forall k :: k in s.data.cache ==> SomeAnswered(c, s.threads, k, s.data.cache[k].hash, s.data.cache[k].body))
    && (forall j :: 0 <= j < |s.threads| && s.threads[j].answer.Replayed? ==>
          var t := s.threads[j];
          t.req.key.Some? && SomeAnswered(c, s.threads, t.req.key.value, c.sha(t.req.body), t.answer.body))
  }

  /** A successful run is final: no later step changes what was answered. */
  lemma AnsweredIsFinal(c: Config, s: State, lab: Label, k: string, hash: seq<bv8>, body: string)
    requires Configured(c) && Enabled(s, lab)
    requires AllHonest(s.threads)
    requires SomeAnswered(c, s.threads, k, hash, body)
    ensures SomeAnswered(c, Apply(c, s, lab).threads, k, hash, body)
  {
    var i :| 0 <= i < |s.threads| && Answered(c, s.threads[i], k, hash, body);
    var s' := Apply(c, s, lab);
    if lab.Step? && lab.i == i {
      assert s.threads[i].code[0] in s.threads[i].code;
    }
    assert Answered(c, s'.threads[i], k, hash, body);
  }

  /** What one step can put into the cache: the answer of the thread that takes it. */
  lemma CacheAfter(c: Config, s: State, lab: Label, k: string)
    requires Configured(c) && Enabled(s, lab)
    requires AllHonest(s.threads)
    requires k in Apply(c, s, lab).data.cache
    ensures var rec := Apply(c, s, lab).data.cache[k];
            || (k in s.data.cache && rec == s.data.cache[k])
            || (&& lab.Step? && s.threads[lab.i].code[0] == Do(Remember)
                && rec.expiry == s.threads[lab.i].stamp + IDEMPOTENCY_TTL_SECS
                && Answered(c, s.threads[lab.i], k, rec.hash, rec.body))
  {
    if lab.Step? && s.threads[lab.i].code[0] == Do(Remember) {
      var t := s.threads[lab.i];
      assert t.code[0] in t.code;
      RememberIsServed(t);
    }
  }

  /** A thread about to remember has been served: its reply is behind it. */
  lemma RememberIsServed(t: Thread)
    requires Honest(t) && t.code != [] && t.code[0] == Do(Remember)
    ensures t.answer.Served? && t.req.key.Some? && Mutating(t.req)
  {
    assert t.code[0] in t.code;
    assert t.code == [t.code[0]] + t.code[1..];
    if t.answer.Waiting? {
      var ins :| ins in t.code && ins.Do? && ins.op.Reply?;
      HeadIsLast(t.code, ins);
    }
  }

  lemma HonestyStays(c: Config, s: State, lab: Label)
    requires Configured(c) && Enabled(s, lab)
    requires AllHonest(s.threads)
    ensures AllHonest(Apply(c, s, lab).threads)
  {
    var s' := Apply(c, s, lab);
    forall i | 0 <= i < |s'.threads| ensures Honest(s'.threads[i]) {
      if i == |s.threads| {
        if lab.Arrive? { DispatchIsHonest(c, lab.req); } else { RefreshIsHonest(); }
      } else if lab.Step? && lab.i == i {
        OwnStepIsHonest(c, s, i, lab.o);
      } else {
        assert s'.threads[i] == s.threads[i];
      }
    }
  }

  lemma RefreshIsHonest()
    ensures Honest(Started(IDLE, RefreshCode()))
  {
    Unphased(0, RefreshCode());
  }

  /** A replayed thread took its body from a live record under its own key and hash. */
  lemma ReplayComesFromTheCache(c: Config, s: State, lab: Label, j: nat)
    requires Configured(c) && Enabled(s, lab) && j < |Apply(c, s, lab).threads|
    requires AllHonest(s.threads)
    requires Apply(c, s, lab).threads[j].answer.Replayed?
    ensures var t' := Apply(c, s, lab).threads[j];
            || (j < |s.threads| && s.threads[j].answer == t'.answer && s.threads[j].req == t'.req)
            || (&& t'.req.key.Some? && t'.req.key.value in s.data.cache
                && s.data.cache[t'.req.key.value].hash == c.sha(t'.req.body)
                && s.data.cache[t'.req.key.value].body == t'.answer.body)
  {
    if j == |s.threads| {
      if lab.Arrive? { DispatchIsHonest(c, lab.req); }
    } else if lab.Step? && lab.i == j {
      assert s.threads[j].code[0] in s.threads[j].code;
    }
  }

  lemma SoundnessStays(c: Config, s: State, lab: Label)
    requires Configured(c) && Enabled(s, lab) && CacheIsSound(c, s)
    ensures CacheIsSound(c, Apply(c, s, lab))
  {
    var s' := Apply(c, s, lab);
    HonestyStays(c, s, lab);
    forall k | k in s'.data.cache
      ensures SomeAnswered(c, s'.threads, k, s'.data.cache[k].hash, s'.data.cache[k].body)
    {
      CacheAfter(c, s, lab, k);
      AnsweredIsFinal(c, s, lab, k, s'.data.cache[k].hash, s'.data.cache[k].body);
    }
    forall j | 0 <= j < |s'.threads| && s'.threads[j].answer.Replayed?
      ensures var t := s'.threads[j];
              t.req.key.Some? && SomeAnswered(c, s'.threads, t.req.key.value, c.sha(t.req.body), t.answer.body)
    {
      ReplayComesFromTheCache(c, s, lab, j);
      var t' := s'.threads[j];
      AnsweredIsFinal(c, s, lab, t'.req.key.value, c.sha(t'.req.body), t'.answer.body);
    }
  }

  lemma {:induction false} SoundAlways(c: Config, s: State, run: seq<Label>)
    requires Configured(c) && Initial(s) && IsRun(c, s, run)
    ensures CacheIsSound(c, After(c, s, run))
    decreases |run|
  {
    if run != [] {
      SoundAlways(c, s, run[..|run| - 1]);
      SoundnessStays(c, After(c, s, run[..|run| - 1]), run[|run| - 1]);
    }
  }

  // ---------------------------------------------------------------------------
  // How far apart two handler runs are
  // ---------------------------------------------------------------------------

  predicate KeyedOn(t: Thread, k: string) {
    t.req.key == Some(k) && Mutating(t.req)
  }

  /** The clock never goes back during the run. */
  ghost predicate ClockRises(c: Config, s: State, run: seq<Label>)
    requires Configured(c) && IsRun(c, s, run)
    decreases |run|
  {
    run != [] ==>
      && ClockRises(c, s, run[..|run| - 1])
      && (run[|run| - 1].SetClock? ==> After(c, s, run[..|run| - 1]).clock <= run[|run| - 1].t)
  }

  /** Mutating requests under key `k` never overlap; everything else may interleave with them at will. */
  ghost predicate OneAtATime(c: Config, s: State, run: seq<Label>, k: string)
    requires Configured(c) && IsRun(c, s, run)
    decreases |run|
  {
    run != [] ==>
      && OneAtATime(c, s, run[..|run| - 1], k)
      && (run[|run| - 1].Arrive? && Mutating(run[|run| - 1].req) && run[|run| - 1].req.key == Some(k) ==>
            forall t <- After(c, s, run[..|run| - 1]).threads :: KeyedOn(t, k) ==> t.code == [])
  }

  /** The handler of `t` has begun: its lookup found nothing live. */
  predicate Begun(t: Thread) {
    !Turned(t) && Do(Lookup) !in t.code
  }

  predicate InCache(t: Thread) {
    t.answer.Served? && Do(Remember) !in t.code
  }

  /** A record dated by `t` is still there, or its time is up. */
  predicate Covered(d: Data, clock: nat, t: Thread, k: string) {
    || (k in d.cache && t.stamp + IDEMPOTENCY_TTL_SECS <= d.cache[k].expiry)
    || t.stamp + IDEMPOTENCY_TTL_SECS <= clock
  }

  ghost predicate AllHonest(threads: seq<Thread>) {
    forall i :: 0 <= i < |threads| ==> Honest(threads[i])
  }

  predicate Dated(threads: seq<Thread>, clock: nat) {
    forall i :: 0 <= i < |threads| ==> threads[i].stamp <= clock && threads[i].begun <= clock
  }

  /** An earlier request under `k` was over before a later one arrived. */
  predicate InTurn(threads: seq<Thread>, k: string) {
    forall i, j :: 0 <= i < j < |threads| && KeyedOn(threads[i], k) && KeyedOn(threads[j], k) ==> threads[i].code == []
  }

  ghost predicate AllCovered(s: State, k: string) {
    forall i :: 0 <= i < |s.threads| && KeyedOn(s.threads[i], k) && InCache(s.threads[i])
      ==> Covered(s.data, s.clock, s.threads[i], k)
  }

  predicate Apart(threads: seq<Thread>, k: string) {
    forall i, j :: 0 <= i < j < |threads| && KeyedOn(threads[i], k) && KeyedOn(threads[j], k)
      && threads[i].answer.Served? && Begun(threads[j])
      ==> threads[i].stamp + IDEMPOTENCY_TTL_SECS <= threads[j].begun
  }

  ghost predicate Spaced(s: State, k: string) {
    && AllHonest(s.threads) && Dated(s.threads, s.clock)
    && InTurn(s.threads, k) && AllCovered(s, k) && Apart(s.threads, k)
  }

  lemma FinishedIsInCache(t: Thread)
    requires t.answer.Served? && t.code == []
    ensures InCache(t)
  {
  }

  lemma OwnDates(c: Config, s: State, i: nat, o: Outcome)
    requires Enabled(s, Step(i, o)) && Honest(s.threads[i])
    requires s.threads[i].stamp <= s.clock && s.threads[i].begun <= s.clock
    ensures var t, t' := s.threads[i], ThreadStep(c, s, i, o).threads[i];
            && t'.req == t.req && t'.stamp <= s.clock && t'.begun <= s.clock
            && (t.answer.Served? ==> t'.answer == t.answer && t'.stamp == t.stamp)
            && (t.code[0] != Do(Lookup) ==> t'.begun == t.begun)
            && (t.code[0] == Do(Lookup) ==> t'.stamp == t.stamp && (t'.begun == s.clock || Turned(t')))
  {
    var t := s.threads[i];
    assert t.code[0] in t.code;
  }

  lemma EntersTheCache(c: Config, s: State, i: nat, o: Outcome)
    requires Enabled(s, Step(i, o)) && Honest(s.threads[i]) && Mutating(s.threads[i].req)
    ensures var t, t' := s.threads[i], ThreadStep(c, s, i, o).threads[i];
            InCache(t') && !InCache(t) ==> t.code[0] == Do(Remember)
  {
    var t := s.threads[i];
    assert t.code == [t.code[0]] + t.code[1..];
    assert t.code[0] in t.code;
  }

  lemma Begins(c: Config, s: State, i: nat, o: Outcome)
    requires Enabled(s, Step(i, o)) && Honest(s.threads[i])
    ensures var t, t' := s.threads[i], ThreadStep(c, s, i, o).threads[i];
            Begun(t') && !Begun(t) ==> t.code[0] == Do(Lookup) && t'.begun == s.clock && t'.stamp == t.stamp
  {
    var t := s.threads[i];
    assert t.code == [t.code[0]] + t.code[1..];
    assert t.code[0] in t.code;
    UnwindReleases(t.held);
  }

  /** What one instruction can change about the keyed facts of its own thread. */
  lemma OwnTurn(c: Config, s: State, i: nat, o: Outcome)
    requires Enabled(s, Step(i, o)) && Honest(s.threads[i])
    requires s.threads[i].stamp <= s.clock && s.threads[i].begun <= s.clock
    ensures var t, t' := s.threads[i], ThreadStep(c, s, i, o).threads[i];
            && t'.req == t.req && t'.stamp <= s.clock && t'.begun <= s.clock
            && (t.answer.Served? ==> t'.answer == t.answer && t'.stamp == t.stamp)
            && (Mutating(t.req) && InCache(t') && !InCache(t) ==> t.code[0] == Do(Remember))
            && (Begun(t') && !Begun(t) ==> t.code[0] == Do(Lookup) && t'.begun == s.clock && t'.stamp == t.stamp)
            && (Begun(t') && Begun(t) && t.code[0] != Do(Lookup) ==> t'.begun == t.begun)
  {
    OwnDates(c, s, i, o);
    if Mutating(s.threads[i].req) { EntersTheCache(c, s, i, o); }
    Begins(c, s, i, o);
  }

  /** A thread remembering under `k` began no earlier than the record of any earlier success ran out. */
  lemma CoverSurvives(c: Config, s: State, i: nat, o: Outcome, a: nat, k: string)
    requires Enabled(s, Step(i, o)) && Spaced(s, k) && a < |s.threads| && a != i
    requires KeyedOn(s.threads[a], k) && InCache(s.threads[a])
    ensures Covered(ThreadStep(c, s, i, o).data, s.clock, s.threads[a], k)
  {
    var t := s.threads[i];
    assert Covered(s.data, s.clock, s.threads[a], k);
    if t.code[0] == Do(Remember) && KeyedOn(t, k) {
      assert a < i;
      RememberIsServed(t);
      RememberHasBegun(t);
    }
  }

  lemma RememberHasBegun(t: Thread)
    requires Honest(t) && t.code != [] && t.code[0] == Do(Remember)
    ensures Begun(t)
  {
    RememberIsServed(t);
    assert t.code == [t.code[0]] + t.code[1..];
    if Do(Lookup) in t.code[1..] { HeadIsLast(t.code, Do(Lookup)); }
  }

  lemma OwnCover(c: Config, s: State, i: nat, o: Outcome, k: string)
    requires Enabled(s, Step(i, o)) && Spaced(s, k) && KeyedOn(s.threads[i], k)
    requires InCache(ThreadStep(c, s, i, o).threads[i])
    ensures Covered(ThreadStep(c, s, i, o).data, s.clock, ThreadStep(c, s, i, o).threads[i], k)
  {
    var t := s.threads[i];
    OwnTurn(c, s, i, o);
    assert t.code[0] in t.code;
    if InCache(t) {
      assert Covered(s.data, s.clock, t, k);
    } else {
      RememberIsServed(t);
    }
  }

  /** A handler that begins now, after earlier successes under its key, begins after their records ran out. */
  lemma BeginsAfterExpiry(c: Config, s: State, a: nat, b: nat, o: Outcome, k: string)
    requires Enabled(s, Step(b, o)) && Spaced(s, k) && a < b
    requires KeyedOn(s.threads[a], k) && KeyedOn(s.threads[b], k) && s.threads[a].answer.Served?
    requires Begun(ThreadStep(c, s, b, o).threads[b])
    ensures s.threads[a].stamp + IDEMPOTENCY_TTL_SECS <= ThreadStep(c, s, b, o).threads[b].begun
  {
    var t := s.threads[b];
    OwnTurn(c, s, b, o);
    assert t.code[0] in t.code;
    if !Begun(t) {
      FinishedIsInCache(s.threads[a]);
      assert Covered(s.data, s.clock, s.threads[a], k);
      assert k !in Live(s.data.cache, t.stamp);
    }
  }

  lemma StepStaysCovered(c: Config, s: State, i: nat, o: Outcome, k: string)
    requires Enabled(s, Step(i, o)) && Spaced(s, k)
    ensures AllCovered(ThreadStep(c, s, i, o), k)
  {
    var s' := ThreadStep(c, s, i, o);
    OwnTurn(c, s, i, o);
    forall a | 0 <= a < |s'.threads| && KeyedOn(s'.threads[a], k) && InCache(s'.threads[a])
      ensures Covered(s'.data, s'.clock, s'.threads[a], k)
    {
      if a == i {
        OwnCover(c, s, i, o, k);
      } else {
        assert s'.threads[a] == s.threads[a];
        CoverSurvives(c, s, i, o, a, k);
      }
    }
  }

  lemma StepStaysApart(c: Config, s: State, i: nat, o: Outcome, k: string)
    requires Enabled(s, Step(i, o)) && Spaced(s, k)
    ensures Dated(ThreadStep(c, s, i, o).threads, s.clock)
    ensures InTurn(ThreadStep(c, s, i, o).threads, k) && Apart(ThreadStep(c, s, i, o).threads, k)
  {
    var s' := ThreadStep(c, s, i, o);
    OwnTurn(c, s, i, o);
    assert s'.threads == s.threads[i := s'.threads[i]];
    forall a, b | 0 <= a < b < |s'.threads| && KeyedOn(s'.threads[a], k) && KeyedOn(s'.threads[b], k)
      && s'.threads[a].answer.Served? && Begun(s'.threads[b])
      ensures s'.threads[a].stamp + IDEMPOTENCY_TTL_SECS <= s'.threads[b].begun
    {
      assert s.threads[a].code == [];
      if b == i { BeginsAfterExpiry(c, s, a, b, o, k); }
    }
  }

  lemma StepStaysSpaced(c: Config, s: State, i: nat, o: Outcome, k: string)
    requires Configured(c) && Enabled(s, Step(i, o)) && Spaced(s, k)
    ensures Spaced(ThreadStep(c, s, i, o), k)
  {
    HonestyStays(c, s, Step(i, o));
    StepStaysCovered(c, s, i, o, k);
    StepStaysApart(c, s, i, o, k);
  }

  /** A mutating request that gets past the door has its lookup ahead of it. */
  lemma ArrivesBeforeItsLookup(c: Config, req: Request)
    requires Configured(c) && Mutating(req)
    ensures !Begun(Dispatch(c, req)) && !Dispatch(c, req).answer.Served?
  {
    DispatchCases(c, req);
  }

  lemma ArrivalStaysApart(threads: seq<Thread>, t: Thread, k: string)
    requires InTurn(threads, k) && Apart(threads, k)
    requires KeyedOn(t, k) ==> !Begun(t) && forall u <- threads :: KeyedOn(u, k) ==> u.code == []
    ensures InTurn(threads + [t], k) && Apart(threads + [t], k)
  {
    assert forall a :: 0 <= a < |threads| ==> (threads + [t])[a] == threads[a] && threads[a] in threads;
  }

  lemma ArrivalStaysSpaced(s: State, t: Thread, k: string)
    requires Spaced(s, k) && Honest(t) && t.stamp == t.begun == 0
    requires KeyedOn(t, k) ==> !Begun(t) && !t.answer.Served?
    requires KeyedOn(t, k) ==> forall u <- s.threads :: KeyedOn(u, k) ==> u.code == []
    ensures Spaced(s.(threads := s.threads + [t]), k)
  {
    ArrivalStaysApart(s.threads, t, k);
    ArrivalStaysCovered(s, t, k);
    assert AllHonest(s.threads + [t]);
  }

  lemma ArrivalStaysCovered(s: State, t: Thread, k: string)
    requires AllCovered(s, k) && (KeyedOn(t, k) ==> !t.answer.Served?)
    ensures AllCovered(s.(threads := s.threads + [t]), k)
  {
  }

  lemma SpacingStays(c: Config, s: State, lab: Label, k: string)
    requires Configured(c) && Enabled(s, lab) && Spaced(s, k)
    requires lab.SetClock? ==> s.clock <= lab.t
    requires lab.Arrive? && Mutating(lab.req) && lab.req.key == Some(k) ==>
               forall t <- s.threads :: KeyedOn(t, k) ==> t.code == []
    ensures Spaced(Apply(c, s, lab), k)
  {
    match lab {
      case Arrive(req) =>
        DispatchIsHonest(c, req);
        DispatchCases(c, req);
        if Mutating(req) { ArrivesBeforeItsLookup(c, req); }
        ArrivalStaysSpaced(s, Dispatch(c, req), k);
      case RefreshPass =>
        RefreshIsHonest();
        ArrivalStaysSpaced(s, Started(IDLE, RefreshCode()), k);
      case SetClock(t) =>
        var s' := s.(clock := t);
        forall a | 0 <= a < |s'.threads| && KeyedOn(s'.threads[a], k) && InCache(s'.threads[a])
          ensures Covered(s'.data, s'.clock, s'.threads[a], k)
        {
          assert Covered(s.data, s.clock, s.threads[a], k);
        }
      case Step(i, o) => StepStaysSpaced(c, s, i, o, k);
    }
  }

  lemma {:induction false} SpacedAlways(c: Config, s: State, run: seq<Label>, k: string)
    requires Configured(c) && Initial(s) && IsRun(c, s, run)
    requires ClockRises(c, s, run) && OneAtATime(c, s, run, k)
    ensures Spaced(After(c, s, run), k)
    decreases |run|
  {
    if run != [] {
      SpacedAlways(c, s, run[..|run| - 1], k);
      SpacingStays(c, After(c, s, run[..|run| - 1]), run[|run| - 1], k);
    }
  }

  /**
   * If requests under one key never overlap, then however everything else interleaves, the handler of a
   * later one begins no sooner than a full lifetime after the clock reading of an earlier successful one.
   */
  lemma SuccessesAreALifetimeApart(c: Config, s: State, run: seq<Label>, k: string, i: nat, j: nat)
    requires Configured(c) && Initial(s) && IsRun(c, s, run)
    requires ClockRises(c, s, run) && OneAtATime(c, s, run, k)
    requires i < j < |After(c, s, run).threads|
    requires var now := After(c, s, run);
             && KeyedOn(now.threads[i], k) && now.threads[i].answer.Served?
             && KeyedOn(now.threads[j], k) && now.threads[j].answer.Served?
    ensures var now := After(c, s, run);
            now.threads[i].stamp + 86_400 <= now.threads[j].begun
  {
    SpacedAlways(c, s, run, k);
    ServedHasBegun(After(c, s, run).threads[j]);
  }

  lemma ServedHasBegun(t: Thread)
    requires Honest(t) && t.answer.Served?
    ensures Begun(t)
  {
    assert OnlyRemembers(t.code);
  }
}
