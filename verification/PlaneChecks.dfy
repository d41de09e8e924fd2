/** What stood in the way of whatever got through, in every run the guards allow. */
module PlaneChecks {
  import opened Plane
  import opened PlaneGuards
  import opened PlanePrograms
  import opened PlaneContainment
  import opened PlaneIdempotency
  import opened PlaneSolo

  /** The register permitted it at some time of some run. */
  ghost predicate OncePermitted(g: Guards, req: Request) {
    exists acts, n: nat, clock: nat :: g.permits(acts, req, n, clock)
  }

  /** A body was accepted and a revocation found its connection, or that is still to come; an answer may be given so. */
  ghost predicate Checked(g: Guards, t: Thread) {
    Mutating(t.req) && !Turned(t) ==>
      && (Do(Check) in t.code || g.accepts(t.req))
      && (t.answer.Served? ==> g.replies(t.req, t.answer.status, t.answer.body))
      && (RouteOf(t.req.verb, t.req.path).RevokeConnection? ==>
            Do(Look(StoreLock)) in t.code || OncePermitted(g, t.req))
  }

  lemma ArrivesUnchecked(c: Config, req: Request, g: Guards)
    requires Configured(c)
    ensures Checked(g, Dispatch(c, req))
  {
    DispatchCases(c, req);
    LetInIsAtTheDoor(c, req);
    var t := Dispatch(c, req);
    if Mutating(req) && !Turned(t) {
      BehindIsRest(c, t);
      var rest := Rest(c, req);
      assert rest[0] == Do(Check) && rest[0] in rest;
      assert RouteOf(req.verb, req.path).RevokeConnection? ==> rest[2] == Do(Look(StoreLock)) && rest[2] in rest;
    }
  }

  lemma StepIsChecked(c: Config, s: State, i: nat, o: Outcome, g: Guards, base: nat)
    requires Enabled(s, Step(i, o)) && Lawful(g, base, s, Step(i, o))
    requires Honest(s.threads[i]) && Checked(g, s.threads[i])
    ensures Checked(g, ThreadStep(c, s, i, o).threads[i])
  {
    var t, t' := s.threads[i], ThreadStep(c, s, i, o).threads[i];
    assert t.code == [t.code[0]] + t.code[1..] && t.code[0] in t.code;
    GoesOnOrUnwinds(c, s, i, o);
    KeptOrTurned(c, s, i, o);
    if Mutating(t.req) { AnswerIsAllowed(c, s, i, o, g, base); }
  }

  lemma AnswerIsAllowed(c: Config, s: State, i: nat, o: Outcome, g: Guards, base: nat)
    requires Enabled(s, Step(i, o)) && Lawful(g, base, s, Step(i, o)) && Mutating(s.threads[i].req)
    ensures var t, t' := s.threads[i], ThreadStep(c, s, i, o).threads[i];
            t'.answer.Served? ==> t'.answer == t.answer || g.replies(t'.req, t'.answer.status, t'.answer.body)
  {
  }

  lemma KeptOrTurned(c: Config, s: State, i: nat, o: Outcome)
    requires Enabled(s, Step(i, o)) && Honest(s.threads[i])
    ensures var t, t' := s.threads[i], ThreadStep(c, s, i, o).threads[i];
            && t'.req == t.req && (Turned(t) ==> Turned(t'))
            && (!Turned(t') ==> t'.code == t.code[1..])
            && (!Turned(t') && t.code[0].Do? && (t.code[0].op.Check? || t.code[0].op.Look?) ==> o.Pass?)
  {
    assert s.threads[i].code[0] in s.threads[i].code;
  }

  /** Every entry of the run is by a request whose body was accepted and which the register permitted. */
  ghost predicate Passed(g: Guards, threads: seq<Thread>, log: seq<Entry>) {
    forall e <- log :: e.maker.By? ==>
      && e.maker.thread < |threads|
      && g.accepts(threads[e.maker.thread].req) && OncePermitted(g, threads[e.maker.thread].req)
  }

  ghost predicate AllChecked(g: Guards, s: State) {
    && (forall i :: 0 <= i < |s.threads| ==> Checked(g, s.threads[i]))
    && (forall i :: 0 <= i < |s.threads| ==> CheckFirst(s.threads[i]))
    && Passed(g, s.threads, s.data.store)
  }

  /** No check behind an append. */
  predicate Leads(code: Code) {
    forall j, k :: 0 <= j < k < |code| && Appends(code[j]) ==> code[k] != Do(Check)
  }

  /** Nothing is appended with the check still ahead; only mutating requests append. */
  predicate CheckFirst(t: Thread) {
    && (forall ins <- t.code :: Appends(ins) ==> Mutating(t.req))
    && Leads(t.code)
    && (Turned(t) ==> forall ins <- t.code :: ins.Release?)
  }

  lemma TailLeads(code: Code)
    requires code != [] && Leads(code)
    ensures Leads(code[1..])
  {
    var tail := code[1..];
    forall j, k | 0 <= j < k < |tail| && Appends(tail[j]) ensures tail[k] != Do(Check) {
      assert tail[j] == code[j + 1] && tail[k] == code[k + 1];
    }
  }

  lemma ReleasesLead(code: Code)
    requires forall ins <- code :: ins.Release?
    ensures Leads(code)
  {
    forall j | 0 <= j < |code| ensures !Appends(code[j]) { assert code[j] in code; }
  }

  lemma TurnedOnlyReleases(c: Config, s: State, i: nat, o: Outcome)
    requires Enabled(s, Step(i, o)) && Honest(s.threads[i])
    requires Turned(s.threads[i]) ==> forall ins <- s.threads[i].code :: ins.Release?
    ensures var t' := ThreadStep(c, s, i, o).threads[i];
            Turned(t') ==> forall ins <- t'.code :: ins.Release?
  {
    NewlyTurned(c, s, i, o);
    GoesOnOrUnwinds(c, s, i, o);
    UnwindReleases(s.threads[i].held);
    TailKeeps(s.threads[i].code);
  }

  lemma TailKeeps(code: Code)
    requires code != []
    ensures forall ins <- code[1..] :: ins in code
  {
  }

  lemma NewlyTurned(c: Config, s: State, i: nat, o: Outcome)
    requires CanStep(s, i)
    ensures var t, t' := s.threads[i], ThreadStep(c, s, i, o).threads[i];
            Turned(t') && !Turned(t) ==> t'.code == Unwind(t.held)
  {
  }

  lemma WorkHasNoCheck(c: Config, req: Request, ins: Instr)
    requires Mutating(req) && ins in Work(c, req, RouteOf(req.verb, req.path))
    ensures ins != Do(Check)
  {
    WorkOps(c, req, RouteOf(req.verb, req.path), ins);
  }

  /** The check is the first thing behind the lookup, and there is one. */
  lemma CheckIsFirst(c: Config, t: Thread)
    requires AtTheDoor(c, t)
    ensures forall k :: 0 <= k < |t.code| && t.code[k] == Do(Check) ==> k == 4
    ensures forall k :: 0 <= k < |t.code| && Appends(t.code[k]) ==> k > 4
  {
    NoSecondLookup(c, t);
    BehindIsRest(c, t);
    forall k | 0 <= k < |t.code| ensures t.code[k] == Do(Check) ==> k == 4 ensures Appends(t.code[k]) ==> k > 4 {
      if k < 4 {
        assert t.code[k] == t.code[..4][k] == OPENING[k];
      } else {
        assert t.code[k] == Rest(c, t.req)[k - 4];
        OneCheck(c, t.req, k - 4);
      }
    }
  }

  lemma OneCheck(c: Config, req: Request, k: nat)
    requires Mutating(req) && k < |Rest(c, req)|
    ensures Rest(c, req)[k] == Do(Check) ==> k == 0
    ensures Appends(Rest(c, req)[k]) ==> k > 0
  {
    var rest, work := Rest(c, req), Work(c, req, RouteOf(req.verb, req.path));
    if 1 <= k < 1 + |work| {
      assert rest[k] == work[k - 1] && work[k - 1] in work;
      WorkHasNoCheck(c, req, work[k - 1]);
    }
  }

  lemma ArrivesCheckFirst(c: Config, req: Request)
    requires Configured(c)
    ensures CheckFirst(Dispatch(c, req))
  {
    DispatchCases(c, req);
    LetInIsAtTheDoor(c, req);
    var t := Dispatch(c, req);
    if Mutating(req) && t.code != [] {
      CheckIsFirst(c, t);
    } else {
      ReadsNeverAppend(c, req);
    }
  }

  lemma ReadsNeverAppend(c: Config, req: Request)
    requires Configured(c) && (!Mutating(req) || Dispatch(c, req).code == [])
    ensures forall ins <- Dispatch(c, req).code :: !Appends(ins)
  {
    DispatchCases(c, req);
    var t := Dispatch(c, req);
    forall ins <- t.code ensures !Appends(ins) {
      if t == Started(req, MetricsCode(c.hasFeed)) {
        MetricsAreQuiet(c.hasFeed, ins);
      } else if t != Started(req, [Do(Check), Do(Reply({200}))]) {
        ReadsAreQuiet(c, req, RouteOf(req.verb, req.path), ins);
      }
    }
  }

  lemma StaysCheckFirst(c: Config, s: State, i: nat, o: Outcome)
    requires Enabled(s, Step(i, o)) && Honest(s.threads[i]) && CheckFirst(s.threads[i])
    ensures CheckFirst(ThreadStep(c, s, i, o).threads[i])
  {
    TailLeads(s.threads[i].code);
    TailKeeps(s.threads[i].code);
    GoesOnOrUnwinds(c, s, i, o);
    KeptOrTurned(c, s, i, o);
    UnwindReleases(s.threads[i].held);
    ReleasesLead(Unwind(s.threads[i].held));
    TurnedOnlyReleases(c, s, i, o);
  }

  /** A thread that is appending was accepted and permitted. */
  lemma AppendingIsPassed(s: State, i: nat, o: Outcome, g: Guards, base: nat)
    requires Enabled(s, Step(i, o)) && Lawful(g, base, s, Step(i, o))
    requires Checked(g, s.threads[i]) && CheckFirst(s.threads[i])
    requires var ins := s.threads[i].code[0];
             Appends(ins) && if ins.op.Commit? then Lands(o) else o.commits > 0
    ensures g.accepts(s.threads[i].req) && OncePermitted(g, s.threads[i].req)
  {
    var t := s.threads[i];
    assert t.code[0] in t.code;
    assert Do(Check) !in t.code;
  }

  lemma StoreAfterStep(c: Config, s: State, i: nat, o: Outcome, e: Entry)
    requires CanStep(s, i) && e in ThreadStep(c, s, i, o).data.store && e !in s.data.store
    ensures var ins := s.threads[i].code[0];
            Appends(ins) && (if ins.op.Commit? then Lands(o) else o.commits > 0) && e.maker == By(i)
  {
  }

  lemma StepStaysChecked(c: Config, s: State, i: nat, o: Outcome, g: Guards, base: nat)
    requires Enabled(s, Step(i, o)) && Lawful(g, base, s, Step(i, o)) && AllHonest(s.threads) && AllChecked(g, s)
    ensures AllChecked(g, ThreadStep(c, s, i, o))
  {
    var s' := ThreadStep(c, s, i, o);
    assert Honest(s.threads[i]);
    StepIsChecked(c, s, i, o, g, base);
    StaysCheckFirst(c, s, i, o);
    KeptOrTurned(c, s, i, o);
    assert s'.threads == s.threads[i := s'.threads[i]];
    forall e <- s'.data.store | e.maker.By?
      ensures e.maker.thread < |s'.threads| && g.accepts(s'.threads[e.maker.thread].req)
      ensures OncePermitted(g, s'.threads[e.maker.thread].req)
    {
      if e !in s.data.store {
        StoreAfterStep(c, s, i, o, e);
        AppendingIsPassed(s, i, o, g, base);
      }
    }
  }

  lemma ArrivalStaysChecked(s: State, t: Thread, g: Guards)
    requires AllChecked(g, s) && Checked(g, t) && CheckFirst(t)
    ensures AllChecked(g, s.(threads := s.threads + [t]))
  {
  }

  lemma {:induction false} CheckedAlways(c: Config, s: State, run: seq<Label>, g: Guards)
    requires Configured(c) && Initial(s) && IsRun(c, s, run) && Obeys(c, s, run, g)
    ensures AllChecked(g, After(c, s, run))
    decreases |run|
  {
    if run != [] {
      var front := run[..|run| - 1];
      CheckedAlways(c, s, front, g);
      SoundAlways(c, s, front);
      var now := After(c, s, front);
      match run[|run| - 1] {
        case Arrive(req) =>
          ArrivesUnchecked(c, req, g);
          ArrivesCheckFirst(c, req);
          ArrivalStaysChecked(now, Dispatch(c, req), g);
        case RefreshPass => ArrivalStaysChecked(now, Started(IDLE, RefreshCode()), g);
        case SetClock(_) =>
        case Step(i, o) => StepStaysChecked(c, now, i, o, g, |s.data.store|);
      }
    }
  }

  predicate Revoking(req: Request) {
    && req.verb.POST? && |req.path| == 4
    && req.path[0] == "v1" && req.path[1] == "connections" && req.path[3] == "revoke"
  }

  /**
   * In every run the guards allow: whoever is on the register sent a body that was accepted and asked for something the
   * register permitted; whoever is served was accepted and told what may be answered; and a revocation past its look-up
   * was permitted.
   */
  lemma NothingUnchecked(c: Config, s: State, run: seq<Label>, g: Guards, i: nat)
    requires Configured(c) && Initial(s) && IsRun(c, s, run) && Obeys(c, s, run, g) && i < |After(c, s, run).threads|
    ensures var now := After(c, s, run);
            var t := now.threads[i];
            && ((exists e <- now.data.store :: e.maker == By(i)) ==> g.accepts(t.req) && OncePermitted(g, t.req))
            && (Mutating(t.req) && t.answer.Served? ==>
                  g.accepts(t.req) && g.replies(t.req, t.answer.status, t.answer.body))
            && (Revoking(t.req) && !Turned(t) && Do(Look(StoreLock)) !in t.code ==> OncePermitted(g, t.req))
  {
    CheckedAlways(c, s, run, g);
    SoundAlways(c, s, run);
    var t := After(c, s, run).threads[i];
    assert Honest(t) && Checked(g, t);
    if t.answer.Served? { assert OnlyRemembers(t.code); }
  }
}
