/** Authority over whole runs: who could have made every change, and what a read-only plane can change. */
module PlaneAuthority {
  import opened Plane
  import opened PlaneGuards
  import opened PlanePrograms
  import opened PlaneContainment
  import opened PlaneIdempotency

  /** The role that guards an act. */
  function Guard(a: Act): Role {
    match a
    case Quarantine(_) | Clear(_) | Revoke(_) => Secops
    case Activate(_) => Register
    case Requested => RequestConnections
    case Decided(_) => Approve
  }

  const WRITERS: set<Role> := {Register, RequestConnections, Approve, Secops}

  /** What a request must have shown for an operation to be in its program. */
  ghost predicate Licensed(c: Config, req: Request, op: Op)
    requires Configured(c)
  {
    match op
    case Commit(a) => !c.readOnly && Holds(c, req, Guard(a))
    case Issue(a) => !c.readOnly && Holds(c, req, Guard(a))
    case Record(a) => !c.readOnly && Holds(c, req, Guard(a))
    case Publish(a) => !c.readOnly && Guard(a) == Secops && Holds(c, req, Guard(a))
    case Acknowledge => Holds(c, req, Mediator)
    case Lookup | Remember => !c.readOnly && exists r <- WRITERS :: Holds(c, req, r)
    case _ => true
  }

  ghost predicate AllLicensed(c: Config, t: Thread)
    requires Configured(c)
  {
    forall ins <- t.code :: ins.Do? ==> Licensed(c, t.req, ins.op)
  }

  lemma WorkIsLicensed(c: Config, req: Request, r: Route, ins: Instr)
    requires Configured(c) && Mutates(r) && !c.readOnly && Holds(c, req, RoleFor(r).value)
    requires ins in RouteCode(c, req, r) && ins.Do?
    ensures Licensed(c, req, ins.op)
  {
    if ins in Work(c, req, r) { WorkOps(c, req, r, ins); }
    assert RoleFor(r).value in WRITERS;
  }

  lemma DispatchIsLicensed(c: Config, req: Request)
    requires Configured(c)
    ensures AllLicensed(c, Dispatch(c, req)) && Dispatch(c, req).req == req
  {
    DispatchCases(c, req);
    var t, r := Dispatch(c, req), RouteOf(req.verb, req.path);
    forall ins <- t.code | ins.Do? ensures Licensed(c, req, ins.op) {
      if t == Started(req, MetricsCode(c.hasFeed)) {
        MetricsAreQuiet(c.hasFeed, ins);
      } else if t != Started(req, [Do(Check), Do(Reply({200}))]) {
        if Mutates(r) { WorkIsLicensed(c, req, r, ins); } else { ReadsAreQuiet(c, req, r, ins); }
      }
    }
  }

  lemma StepStaysLicensed(c: Config, s: State, i: nat, o: Outcome)
    requires Configured(c) && CanStep(s, i) && AllLicensed(c, s.threads[i])
    ensures var t' := ThreadStep(c, s, i, o).threads[i]; AllLicensed(c, t') && t'.req == s.threads[i].req
  {
    UnwindReleases(s.threads[i].held);
  }

  /** Every entry this run appended is attributable to a request that held the role guarding it. */
  ghost predicate Attributed(c: Config, threads: seq<Thread>, e: Entry)
    requires Configured(c)
  {
    e.maker.By? ==> e.maker.thread < |threads| && !c.readOnly && Holds(c, threads[e.maker.thread].req, Guard(e.act))
  }

  ghost predicate LogAttributed(c: Config, threads: seq<Thread>, log: seq<Entry>)
    requires Configured(c)
  {
    forall e <- log :: Attributed(c, threads, e)
  }

  ghost predicate Accountable(c: Config, s: State)
    requires Configured(c)
  {
    && (forall i :: 0 <= i < |s.threads| ==> AllLicensed(c, s.threads[i]))
    && LogAttributed(c, s.threads, s.data.store)
    && LogAttributed(c, s.threads, s.data.evidence)
    && LogAttributed(c, s.threads, s.data.feed)
    && (forall e <- s.data.feed :: e.maker.By? ==> Guard(e.act) == Secops)
  }

  /** Requests never change, so what was attributed stays so. */
  ghost predicate SameRequests(now: seq<Thread>, next: seq<Thread>) {
    |now| <= |next| && forall i :: 0 <= i < |now| ==> next[i].req == now[i].req
  }

  lemma AttributionSurvives(c: Config, now: seq<Thread>, next: seq<Thread>, log: seq<Entry>, more: seq<Entry>)
    requires Configured(c) && LogAttributed(c, now, log) && SameRequests(now, next)
    requires forall e <- more :: Attributed(c, next, e)
    ensures LogAttributed(c, next, log + more)
  {
  }

  /** What an operation appends to each log, in the name of its own thread. */
  lemma EffectAppends(c: Config, d: Data, i: nat, t: Thread, op: Op, o: Outcome)
      returns (st: seq<Entry>, ev: seq<Entry>, fe: seq<Entry>)
    ensures var d' := Effect(c, d, i, t, op, o);
            d'.store == d.store + st && d'.evidence == d.evidence + ev && d'.feed == d.feed + fe
    ensures forall e | e in st || e in ev || e in fe ::
              && e.maker == By(i)
              && (op == Commit(e.act) || op == Issue(e.act) || op == Record(e.act) || op == Publish(e.act))
    ensures forall e <- fe :: op == Publish(e.act)
  {
    var d' := Effect(c, d, i, t, op, o);
    st := d'.store[|d.store|..];
    ev := d'.evidence[|d.evidence|..];
    fe := d'.feed[|d.feed|..];
  }

  lemma StepStaysAccountable(c: Config, s: State, i: nat, o: Outcome)
    requires Configured(c) && CanStep(s, i) && Accountable(c, s)
    ensures Accountable(c, ThreadStep(c, s, i, o))
  {
    var t, s' := s.threads[i], ThreadStep(c, s, i, o);
    StepStaysLicensed(c, s, i, o);
    assert s'.threads == s.threads[i := s'.threads[i]];
    assert SameRequests(s.threads, s'.threads);
    var st, ev, fe := [], [], [];
    if t.code[0].Do? {
      assert t.code[0] in t.code;
      st, ev, fe := EffectAppends(c, s.data, i, t, t.code[0].op, o);
    }
    AttributionSurvives(c, s.threads, s'.threads, s.data.store, st);
    AttributionSurvives(c, s.threads, s'.threads, s.data.evidence, ev);
    AttributionSurvives(c, s.threads, s'.threads, s.data.feed, fe);
    assert s.data.store + [] == s.data.store;
    assert s.data.evidence + [] == s.data.evidence && s.data.feed + [] == s.data.feed;
  }

  lemma ArrivalStaysAccountable(c: Config, s: State, t: Thread)
    requires Configured(c) && Accountable(c, s) && AllLicensed(c, t)
    ensures Accountable(c, s.(threads := s.threads + [t]))
  {
    var next := s.threads + [t];
    assert SameRequests(s.threads, next);
    AttributionSurvives(c, s.threads, next, s.data.store, []);
    AttributionSurvives(c, s.threads, next, s.data.evidence, []);
    AttributionSurvives(c, s.threads, next, s.data.feed, []);
    assert s.data.store + [] == s.data.store;
    assert s.data.evidence + [] == s.data.evidence && s.data.feed + [] == s.data.feed;
  }

  lemma {:induction false} AccountableAlways(c: Config, s: State, run: seq<Label>)
    requires Configured(c) && Initial(s) && IsRun(c, s, run)
    ensures Accountable(c, After(c, s, run))
    decreases |run|
  {
    if run != [] {
      var front := run[..|run| - 1];
      AccountableAlways(c, s, front);
      var now := After(c, s, front);
      match run[|run| - 1] {
        case Arrive(req) =>
          DispatchIsLicensed(c, req);
          ArrivalStaysAccountable(c, now, Dispatch(c, req));
        case RefreshPass => ArrivalStaysAccountable(c, now, Started(IDLE, RefreshCode()));
        case SetClock(_) =>
        case Step(i, o) => StepStaysAccountable(c, now, i, o);
      }
    }
  }

  /** What the run added to a log. */
  function Added(before: seq<Entry>, after: seq<Entry>): seq<Entry>
    requires before <= after
  {
    after[|before|..]
  }

  lemma SomethingAdded(before: seq<Entry>, after: seq<Entry>)
    requires before <= after && before != after
    ensures exists e :: e in Added(before, after)
  {
    assert Added(before, after)[0] in Added(before, after);
  }

  lemma NothingAdded(before: seq<Entry>, after: seq<Entry>)
    requires before <= after && forall e :: e !in Added(before, after)
    ensures after == before
  {
    if after != before { SomethingAdded(before, after); }
  }

  ghost predicate Grown(d: Data, d': Data) {
    && d.store <= d'.store && (forall e <- Added(d.store, d'.store) :: e.maker.By?)
    && d.evidence <= d'.evidence && (forall e <- Added(d.evidence, d'.evidence) :: e.maker.By?)
    && d.feed <= d'.feed && (forall e <- Added(d.feed, d'.feed) :: e.maker.By?)
  }

  lemma AppendGrows(first: seq<Entry>, log: seq<Entry>, more: seq<Entry>)
    requires first <= log && forall e <- Added(first, log) + more :: e.maker.By?
    ensures first <= log + more && forall e <- Added(first, log + more) :: e.maker.By?
  {
    assert Added(first, log + more) == Added(first, log) + more;
  }

  lemma {:induction false} RunGrows(c: Config, s: State, run: seq<Label>)
    requires Configured(c) && IsRun(c, s, run)
    ensures Grown(s.data, After(c, s, run).data)
    decreases |run|
  {
    if run != [] {
      var front, last := run[..|run| - 1], run[|run| - 1];
      RunGrows(c, s, front);
      var now := After(c, s, front);
      if last.Step? && now.threads[last.i].code[0].Do? {
        var t := now.threads[last.i];
        var st, ev, fe := EffectAppends(c, now.data, last.i, t, t.code[0].op, last.o);
        AppendGrows(s.data.store, now.data.store, st);
        AppendGrows(s.data.evidence, now.data.evidence, ev);
        AppendGrows(s.data.feed, now.data.feed, fe);
      }
    }
  }

  /** A thread of the run made it, holding the role that guards it, on a plane that takes changes. */
  ghost predicate Authorised(c: Config, now: State, e: Entry)
    requires Configured(c)
  {
    && e.maker.By? && e.maker.thread < |now.threads| && !c.readOnly
    && Holds(c, now.threads[e.maker.thread].req, Guard(e.act))
  }

  /** Logs only grow, and every entry a run adds was made by a request that presented the guarding role. */
  lemma EveryChangeIsAuthorised(c: Config, s: State, run: seq<Label>)
    requires Configured(c) && Initial(s) && IsRun(c, s, run)
    ensures Grown(s.data, After(c, s, run).data)
    ensures var d, now := s.data, After(c, s, run);
            forall e | e in Added(d.store, now.data.store) || e in Added(d.evidence, now.data.evidence)
              || e in Added(d.feed, now.data.feed) :: Authorised(c, now, e)
  {
    RunGrows(c, s, run);
    AccountableAlways(c, s, run);
    var d, now := s.data, After(c, s, run);
    forall e | e in Added(d.store, now.data.store) || e in Added(d.evidence, now.data.evidence)
      || e in Added(d.feed, now.data.feed)
      ensures Authorised(c, now, e)
    {
      assert e in now.data.store || e in now.data.evidence || e in now.data.feed;
      assert Attributed(c, now.threads, e);
    }
  }

  /** No registered token carries the role. */
  ghost predicate Unheld(c: Config, role: Role) {
    forall t <- c.tokens :: role !in c.tokens[t]
  }

  lemma UnheldIsNotHeld(c: Config, req: Request, role: Role)
    requires Configured(c) && Unheld(c, role)
    ensures !Holds(c, req, role)
  {
  }

  lemma FeedIsSecops(c: Config, now: State, e: Entry)
    requires Configured(c) && Accountable(c, now) && e in now.data.feed && e.maker.By?
    ensures e.maker.thread < |now.threads| && Holds(c, now.threads[e.maker.thread].req, Secops)
  {
    assert Attributed(c, now.threads, e) && Guard(e.act) == Secops;
  }

  lemma NoFeedWithoutSecops(c: Config, s: State, run: seq<Label>)
    requires Configured(c) && Initial(s) && IsRun(c, s, run) && Unheld(c, Secops)
    ensures After(c, s, run).data.feed == s.data.feed
  {
    RunGrows(c, s, run);
    AccountableAlways(c, s, run);
    var before, now := s.data.feed, After(c, s, run);
    forall e ensures e !in Added(before, now.data.feed) {
      if e in Added(before, now.data.feed) {
        FeedIsSecops(c, now, e);
        UnheldIsNotHeld(c, now.threads[e.maker.thread].req, Secops);
      }
    }
    NothingAdded(before, now.data.feed);
  }

  /** Where no token carries a role, no run of requests adds anything that role guards. */
  lemma UnheldRoleChangesNothing(c: Config, s: State, run: seq<Label>, role: Role)
    requires Configured(c) && Initial(s) && IsRun(c, s, run) && Unheld(c, role)
    ensures Grown(s.data, After(c, s, run).data)
    ensures var d, d' := s.data, After(c, s, run).data;
            && (forall e <- Added(d.store, d'.store) :: Guard(e.act) != role)
            && (forall e <- Added(d.evidence, d'.evidence) :: Guard(e.act) != role)
            && (role == Secops ==> d'.feed == d.feed)
            && (role == Mediator ==> d'.acks == d.acks)
  {
    EveryChangeIsAuthorised(c, s, run);
    if role == Secops {
      NoFeedWithoutSecops(c, s, run);
    }
    if role == Mediator { AcksStandStill(c, s, run); }
  }

  lemma UnheldAckStep(c: Config, s: State, i: nat, o: Outcome)
    requires Configured(c) && CanStep(s, i) && AllLicensed(c, s.threads[i]) && Unheld(c, Mediator)
    ensures ThreadStep(c, s, i, o).data.acks == s.data.acks
  {
    assert s.threads[i].code[0] in s.threads[i].code;
  }

  lemma {:induction false} AcksStandStill(c: Config, s: State, run: seq<Label>)
    requires Configured(c) && Initial(s) && IsRun(c, s, run) && Unheld(c, Mediator)
    ensures After(c, s, run).data.acks == s.data.acks
    decreases |run|
  {
    if run != [] {
      var front, last := run[..|run| - 1], run[|run| - 1];
      AcksStandStill(c, s, front);
      AccountableAlways(c, s, front);
      if last.Step? { UnheldAckStep(c, After(c, s, front), last.i, last.o); }
    }
  }

  /** Without a writing role, or on a read-only plane, the idempotency cache stays empty. */
  lemma {:induction false} CacheStandsStill(c: Config, s: State, run: seq<Label>)
    requires Configured(c) && Initial(s) && IsRun(c, s, run)
    requires c.readOnly || forall r <- WRITERS :: Unheld(c, r)
    ensures After(c, s, run).data.cache == s.data.cache
    decreases |run|
  {
    if run != [] {
      var front, last := run[..|run| - 1], run[|run| - 1];
      CacheStandsStill(c, s, front);
      AccountableAlways(c, s, front);
      if last.Step? {
        var t := After(c, s, front).threads[last.i];
        assert t.code[0] in t.code;
        assert t.code[0].Do? ==> Licensed(c, t.req, t.code[0].op);
      }
    }
  }

  /** A read-only plane changes no state: no run of requests touches store, evidence, feed or cache. */
  lemma ReadOnlyChangesNoState(c: Config, s: State, run: seq<Label>)
    requires Configured(c) && Initial(s) && IsRun(c, s, run) && c.readOnly
    ensures var d, d' := s.data, After(c, s, run).data;
            d'.store == d.store && d'.evidence == d.evidence && d'.feed == d.feed && d'.cache == d.cache
  {
    EveryChangeIsAuthorised(c, s, run);
    CacheStandsStill(c, s, run);
    var d, d' := s.data, After(c, s, run).data;
    NothingAdded(d.store, d'.store);
    NothingAdded(d.evidence, d'.evidence);
    NothingAdded(d.feed, d'.feed);
  }

  /** No step moves a mediator's acknowledgement back to an older set. */
  lemma {:induction false} AcksNeverGoBack(c: Config, s: State, run: seq<Label>, m: string)
    requires Configured(c) && IsRun(c, s, run) && m in s.data.acks
    ensures m in After(c, s, run).data.acks && s.data.acks[m].seqNo <= After(c, s, run).data.acks[m].seqNo
    decreases |run|
  {
    if run != [] { AcksNeverGoBack(c, s, run[..|run| - 1], m); }
  }

  // ---------------------------------------------------------------------------
  // Acknowledgements land, on a read-only plane too
  // ---------------------------------------------------------------------------

  predicate Acks(req: Request) {
    req.verb.POST? && IsAckPath(req.path)
  }

  /** The ledger holds this acknowledgement or a later one by the same mediator. */
  predicate OnLedger(acks: map<string, Ack>, req: Request)
    requires Acks(req)
  {
    req.path[2] in acks && req.ack.seqNo <= acks[req.path[2]].seqNo
  }

  /** An acknowledging request was refused, has its write ahead of it, or is on the ledger. */
  predicate AckKept(acks: map<string, Ack>, t: Thread) {
    Acks(t.req) ==> t.answer.Refused? || Do(Acknowledge) in t.code || OnLedger(acks, t.req)
  }

  lemma AckArrives(c: Config, req: Request, acks: map<string, Ack>)
    requires Configured(c)
    ensures AckKept(acks, Dispatch(c, req))
  {
    DispatchCases(c, req);
    if Acks(req) && Dispatch(c, req).code != [] {
      assert RouteOf(req.verb, req.path) == AckSet(req.path[2]);
      assert Do(Acknowledge) in Region(AckLock, Acknowledge);
      AckIsAhead(c, req);
    }
  }

  lemma AckIsAhead(c: Config, req: Request)
    requires Acks(req)
    ensures Do(Acknowledge) in RouteCode(c, req, AckSet(req.path[2]))
  {
    assert RouteCode(c, req, AckSet(req.path[2]))[2] == Do(Acknowledge);
  }

  lemma LedgerGrows(c: Config, s: State, i: nat, o: Outcome, req: Request)
    requires CanStep(s, i) && Acks(req) && OnLedger(s.data.acks, req)
    ensures OnLedger(ThreadStep(c, s, i, o).data.acks, req)
  {
  }

  /** An acknowledging request goes on or is refused: it is never replayed. */
  lemma AckerGoesOn(c: Config, s: State, i: nat, o: Outcome)
    requires Enabled(s, Step(i, o)) && Honest(s.threads[i]) && Acks(s.threads[i].req)
    ensures var t, t' := s.threads[i], ThreadStep(c, s, i, o).threads[i];
            && t'.req == t.req
            && (t'.answer.Refused? || (t'.code == t.code[1..] && (t.answer.Refused? ==> t'.answer == t.answer)))
  {
    var t := s.threads[i];
    assert t.code[0] in t.code;
    assert RouteOf(t.req.verb, t.req.path) == AckSet(t.req.path[2]);
  }

  lemma AckIsWritten(c: Config, s: State, i: nat, o: Outcome)
    requires Enabled(s, Step(i, o)) && Acks(s.threads[i].req) && s.threads[i].code[0] == Do(Acknowledge) && o.Pass?
    ensures OnLedger(ThreadStep(c, s, i, o).data.acks, s.threads[i].req)
  {
  }

  lemma OwnAckStep(c: Config, s: State, i: nat, o: Outcome)
    requires Enabled(s, Step(i, o)) && Honest(s.threads[i]) && AckKept(s.data.acks, s.threads[i])
    ensures AckKept(ThreadStep(c, s, i, o).data.acks, ThreadStep(c, s, i, o).threads[i])
  {
    var t, s' := s.threads[i], ThreadStep(c, s, i, o);
    if Acks(t.req) {
      AckerGoesOn(c, s, i, o);
      if t.code[0] == Do(Acknowledge) && o.Pass? {
        AckIsWritten(c, s, i, o);
      } else if OnLedger(s.data.acks, t.req) {
        LedgerGrows(c, s, i, o, t.req);
      } else if !s'.threads[i].answer.Refused? {
        assert t.code == [t.code[0]] + t.code[1..];
      }
    } else {
      assert s'.threads[i].req == t.req;
    }
  }

  predicate AllAcksKept(s: State) {
    forall i :: 0 <= i < |s.threads| ==> AckKept(s.data.acks, s.threads[i])
  }

  lemma AcksStayKept(c: Config, s: State, lab: Label)
    requires Configured(c) && Enabled(s, lab) && AllHonest(s.threads)
    requires AllAcksKept(s)
    ensures AllAcksKept(Apply(c, s, lab))
  {
    var s' := Apply(c, s, lab);
    forall i | 0 <= i < |s'.threads| ensures AckKept(s'.data.acks, s'.threads[i]) {
      if i == |s.threads| {
        if lab.Arrive? { AckArrives(c, lab.req, s.data.acks); }
      } else if lab.Step? && lab.i == i {
        OwnAckStep(c, s, i, lab.o);
      } else if lab.Step? && Acks(s.threads[i].req) && OnLedger(s.data.acks, s.threads[i].req) {
        LedgerGrows(c, s, lab.i, lab.o, s.threads[i].req);
      }
    }
  }

  lemma {:induction false} AcksKeptAlways(c: Config, s: State, run: seq<Label>)
    requires Configured(c) && Initial(s) && IsRun(c, s, run)
    ensures AllAcksKept(After(c, s, run))
    decreases |run|
  {
    if run != [] {
      var front := run[..|run| - 1];
      AcksKeptAlways(c, s, front);
      SoundAlways(c, s, front);
      AcksStayKept(c, After(c, s, front), run[|run| - 1]);
    }
  }

  /** Whatever the interleaving and the mode, an acknowledgement answered as done, or a later one, is on the ledger. */
  lemma AckLands(c: Config, s: State, run: seq<Label>, i: nat)
    requires Configured(c) && Initial(s) && IsRun(c, s, run)
    requires var now := After(c, s, run);
             i < |now.threads| && Acks(now.threads[i].req) && now.threads[i].answer.Served?
    ensures OnLedger(After(c, s, run).data.acks, After(c, s, run).threads[i].req)
  {
    AcksKeptAlways(c, s, run);
    SoundAlways(c, s, run);
    var now := After(c, s, run);
    assert Honest(now.threads[i]) && AckKept(now.data.acks, now.threads[i]);
    assert OnlyRemembers(now.threads[i].code);
  }

  lemma AckProgram(c: Config, req: Request)
    requires Configured(c) && req.verb.POST? && IsAckPath(req.path) && Holds(c, req, Mediator)
    ensures Dispatch(c, req)
            == Started(req, [Do(Check), Acquire(AckLock), Do(Acknowledge), Release(AckLock), Do(Reply({204}))])
  {
    assert RouteOf(req.verb, req.path) == AckSet(req.path[2]);
    assert [Do(Check)] + Region(AckLock, Acknowledge) + [Do(Reply({204}))]
        == [Do(Check), Acquire(AckLock), Do(Acknowledge), Release(AckLock), Do(Reply({204}))];
  }

  lemma AckSteps(c: Config, s: State, t: Thread, o: Outcome)
    requires s.threads == [t] && s.owner == map[] && t.held == [] && |t.req.path| == 4 && o.Pass? && o.status == 204
    requires t.code == [Do(Check), Acquire(AckLock), Do(Acknowledge), Release(AckLock), Do(Reply({204}))]
    ensures Enabled(s, Step(0, o)) && s.threads[0].code[0] == Do(Check)
    ensures var s1 := ThreadStep(c, s, 0, o);
            && Enabled(s1, Step(0, o)) && s1.threads[0].code[0].Acquire?
            && var s2 := ThreadStep(c, s1, 0, o);
            && Enabled(s2, Step(0, o)) && s2.threads[0].code[0] == Do(Acknowledge)
            && var s3 := ThreadStep(c, s2, 0, o);
            && s3.data == s.data.(acks := Acked(s.data.acks, t.req.path[2], t.req.ack))
  {
    var t1 := t.(code := t.code[1..]);
    assert ThreadStep(c, s, 0, o) == s.(threads := [t1]);
    var t2 := t1.(held := [] + [AckLock], code := t1.code[1..]);
    assert ThreadStep(c, s.(threads := [t1]), 0, o) == s.(threads := [t2], owner := map[AckLock := 0]);
    assert t2.code[0] == Do(Acknowledge);
  }

  /** The ledger after one acknowledgement: it is there unless a later one was, and nobody else's changed. */
  ghost predicate Filed(before: map<string, Ack>, after: map<string, Ack>, m: string, a: Ack) {
    && after.Keys == before.Keys + {m}
    && after[m] == (if m in before && before[m].seqNo > a.seqNo then before[m] else a)
    && forall other <- before :: other != m ==> after[other] == before[other]
  }

  lemma AckedIsFiled(before: map<string, Ack>, m: string, a: Ack)
    ensures Filed(before, Acked(before, m, a), m, a)
  {
  }

  /** Whatever the mode, a mediator's acknowledgement that can be read can be recorded, changing nothing else. */
  lemma AckCanBeRecorded(c: Config, s: State, req: Request, g: Guards) returns (run: seq<Label>)
    requires Configured(c) && Initial(s) && g.accepts(req)
    requires req.verb.POST? && IsAckPath(req.path) && Holds(c, req, Mediator)
    ensures IsRun(c, s, run) && Obeys(c, s, run, g)
    ensures var d' := After(c, s, run).data;
            d' == s.data.(acks := d'.acks) && Filed(s.data.acks, d'.acks, req.path[2], req.ack)
  {
    AckProgram(c, req);
    AckedIsFiled(s.data.acks, req.path[2], req.ack);
    var t := Dispatch(c, req);
    var step := Step(0, Pass(204, "", 0, 0));
    assert IsRun(c, s, []) && Obeys(c, s, [], g);
    ObeysExtends(c, s, [], Arrive(req), g);
    run := [] + [Arrive(req)];
    assert After(c, s, run) == s.(threads := [t]);
    AckSteps(c, s.(threads := [t]), t, step.o);
    ObeysExtends(c, s, run, step, g);
    ObeysExtends(c, s, run + [step], step, g);
    ObeysExtends(c, s, run + [step] + [step], step, g);
    run := run + [step] + [step] + [step];
  }
}
