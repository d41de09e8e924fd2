/** Replays: what a replayed client is told, by whose leave, and whose answer it is. */
module PlaneReplays {
  import opened Wrappers
  import opened Plane
  import opened PlaneGuards
  import opened PlanePrograms
  import opened PlaneIdempotency
  import opened PlaneAuthority
  import opened PlaneSolo

  function RouteFor(req: Request): Route {
    RouteOf(req.verb, req.path)
  }

  /** The caller holds the role of the route it asked for. */
  ghost predicate MayAsk(c: Config, req: Request)
    requires Configured(c) && Mutating(req)
  {
    Holds(c, req, RoleFor(RouteFor(req)).value)
  }

  // ---------------------------------------------------------------------------
  // Statuses and roles over every run
  // ---------------------------------------------------------------------------

  /** A mutating request answers as its route does, a replay answers 200, and neither happens without the role. */
  ghost predicate Told(c: Config, t: Thread)
    requires Configured(c)
  {
    && (t.answer.Replayed? ==> t.answer.status == 200 && Mutating(t.req))
    && (Mutating(t.req) ==>
          && (forall ins <- t.code :: ins.Do? && ins.op.Reply? ==> ins.op.statuses == Statuses(RouteFor(t.req)))
          && (t.answer.Served? ==> t.answer.status in Statuses(RouteFor(t.req)))
          && (!t.answer.Refused? ==> MayAsk(c, t.req)))
  }

  lemma RepliesOfTheRoute(c: Config, req: Request, ins: Instr)
    requires Mutating(req) && ins in RouteCode(c, req, RouteFor(req)) && ins.Do? && ins.op.Reply?
    ensures ins.op.statuses == Statuses(RouteFor(req))
  {
    if ins in Handler(c, req, RouteFor(req)) { HandlerIsSilent(c, req, RouteFor(req), ins); }
  }

  lemma ToldOnArrival(c: Config, req: Request)
    requires Configured(c)
    ensures Told(c, Dispatch(c, req))
  {
    DispatchCases(c, req);
    var t := Dispatch(c, req);
    if Mutating(req) && t.code != [] {
      forall ins <- t.code | ins.Do? && ins.op.Reply? ensures ins.op.statuses == Statuses(RouteFor(req)) {
        RepliesOfTheRoute(c, req, ins);
      }
    }
  }

  lemma ToldOnStep(c: Config, s: State, i: nat, o: Outcome)
    requires Configured(c) && Enabled(s, Step(i, o)) && Honest(s.threads[i]) && Told(c, s.threads[i])
    ensures Told(c, ThreadStep(c, s, i, o).threads[i])
  {
    var t := s.threads[i];
    assert t.code[0] in t.code;
    UnwindReleases(t.held);
  }

  ghost predicate AllTold(c: Config, threads: seq<Thread>)
    requires Configured(c)
  {
    forall i :: 0 <= i < |threads| ==> Told(c, threads[i])
  }

  lemma ToldStays(c: Config, s: State, lab: Label)
    requires Configured(c) && Enabled(s, lab) && AllHonest(s.threads) && AllTold(c, s.threads)
    ensures AllTold(c, Apply(c, s, lab).threads)
  {
    var s' := Apply(c, s, lab);
    forall i | 0 <= i < |s'.threads| ensures Told(c, s'.threads[i]) {
      if i == |s.threads| {
        if lab.Arrive? { ToldOnArrival(c, lab.req); }
      } else if lab.Step? && lab.i == i {
        ToldOnStep(c, s, i, lab.o);
      } else {
        assert s'.threads[i] == s.threads[i];
      }
    }
  }

  lemma {:induction false} ToldAlways(c: Config, s: State, run: seq<Label>)
    requires Configured(c) && Initial(s) && IsRun(c, s, run)
    ensures AllTold(c, After(c, s, run).threads)
    decreases |run|
  {
    if run != [] {
      var front := run[..|run| - 1];
      ToldAlways(c, s, front);
      SoundAlways(c, s, front);
      ToldStays(c, After(c, s, front), run[|run| - 1]);
    }
  }

  // ---------------------------------------------------------------------------
  // Whose answer a replay is
  // ---------------------------------------------------------------------------

  /** Thread `t` repeats what `earlier` was told: same key, same body hash, same body; each by its own route's leave. */
  ghost predicate Repeats(c: Config, t: Thread, earlier: Thread)
    requires Configured(c)
  {
    && t.answer.Replayed? && t.req.key.Some? && Mutating(t.req) && MayAsk(c, t.req) && t.answer.status == 200
    && Answered(c, earlier, t.req.key.value, c.sha(t.req.body), t.answer.body)
    && MayAsk(c, earlier.req) && earlier.answer.status in Statuses(RouteFor(earlier.req))
  }

  /**
   * Under any interleaving, a replayed request is told 200 and the body of another request under the same key, with
   * the same body hash, which was served with a status of its own route. Nothing ties the two routes or callers.
   */
  lemma ReplayIsAnEarlierAnswer(c: Config, s: State, run: seq<Label>, j: nat) returns (i: nat)
    requires Configured(c) && Initial(s) && IsRun(c, s, run)
    requires j < |After(c, s, run).threads| && After(c, s, run).threads[j].answer.Replayed?
    ensures i < |After(c, s, run).threads| && i != j
    ensures Repeats(c, After(c, s, run).threads[j], After(c, s, run).threads[i])
  {
    SoundAlways(c, s, run);
    ToldAlways(c, s, run);
    var now := After(c, s, run);
    var t := now.threads[j];
    i :| 0 <= i < |now.threads| && Answered(c, now.threads[i], t.req.key.value, c.sha(t.req.body), t.answer.body);
    assert Told(c, t) && Told(c, now.threads[i]);
  }

  /**
   * A route names the operation it is about: the entity activated, the request decided, the connection revoked. If all
   * mutating requests under a key are on one route, a replay is of that route, its caller may ask for it, and, SHA-256
   * being injective, it is about the same act.
   */
  lemma OneRouteReplaysItself(c: Config, s: State, run: seq<Label>, j: nat, k: string, r: Route) returns (i: nat)
    requires Configured(c) && Initial(s) && IsRun(c, s, run)
    requires var now := After(c, s, run);
             && j < |now.threads| && now.threads[j].answer.Replayed? && now.threads[j].req.key == Some(k)
             && forall t <- now.threads :: KeyedOn(t, k) ==> RouteFor(t.req) == r
    ensures i < |After(c, s, run).threads| && i != j
    ensures var now := After(c, s, run);
            && Repeats(c, now.threads[j], now.threads[i])
            && RouteFor(now.threads[i].req) == RouteFor(now.threads[j].req) == r && Mutates(r)
            && Holds(c, now.threads[j].req, RoleFor(RouteFor(now.threads[i].req)).value)
            && (T.Injective(c.sha) ==> ActOf(c, now.threads[i].req) == ActOf(c, now.threads[j].req))
  {
    i := ReplayIsAnEarlierAnswer(c, s, run, j);
    var now := After(c, s, run);
    assert now.threads[i] in now.threads && now.threads[j] in now.threads;
  }

  // ---------------------------------------------------------------------------
  // Across routes
  // ---------------------------------------------------------------------------

  ghost predicate MadeNothing(d: Data, i: nat) {
    forall e | e in d.store || e in d.evidence || e in d.feed :: e.maker != By(i)
  }

  /** The second request was told 200 and the first one's body, whatever the first was told, and did nothing itself. */
  ghost predicate ToldTheOther(now: State, first: Request, second: Request, want: Outcome)
    requires want.Pass?
  {
    && |now.threads| == 2 && now.threads[0].req == first && now.threads[1].req == second
    && now.threads[0].answer == Served(want.status, want.body)
    && now.threads[1].answer == Replayed(200, want.body) && now.threads[1].code == []
    && MadeNothing(now.data, 1)
  }

  lemma NewcomerMadeNothing(c: Config, s: State, run: seq<Label>)
    requires Configured(c) && Initial(s) && IsRun(c, s, run)
    ensures MadeNothing(After(c, s, run).data, |After(c, s, run).threads|)
  {
    AccountableAlways(c, s, run);
    var now := After(c, s, run);
    forall e | e in now.data.store || e in now.data.evidence || e in now.data.feed
      ensures e.maker != By(|now.threads|)
    {
      assert Attributed(c, now.threads, e);
    }
  }

  lemma FindsTheRecord(c: Config, now: State, next: State, first: Request, second: Request, want: Outcome)
    requires NewlyServed(c, now, next, first, want)
    requires first.key == second.key && c.sha(first.body) == c.sha(second.body)
    ensures var k := second.key.value;
            && k in Live(next.data.cache, next.clock)
            && next.data.cache[k].hash == c.sha(second.body) && next.data.cache[k].body == want.body
  {
  }

  /**
   * The cache looks at the key and the body hash alone. For any two mutating requests the plane lets in under one key
   * with one body hash, on whatever routes and by whatever callers, if the first is accepted and permitted, then for
   * any answer it may get there is a run in which the second is told 200 and that body, and nothing is done for it.
   */
  lemma ReplayCanCrossRoutes(c: Config, s: State, first: Request, second: Request, want: Outcome, g: Guards)
      returns (run: seq<Label>)
    requires Configured(c) && Initial(s) && LetIn(c, first) && LetIn(c, second) && Granted(g, [], s.clock, first, want)
    requires first.key == second.key && c.sha(first.body) == c.sha(second.body)
    ensures IsRun(c, s, run) && Obeys(c, s, run, g) && ToldTheOther(After(c, s, run), first, second, want)
  {
    assert IsRun(c, s, []) && Live(s.data.cache, s.clock) == map[];
    NothingSince(s);
    var steps := ServeNew(c, s, [], first, want, g);
    run := [] + [Arrive(first)] + steps;
    var served := After(c, s, run);
    FindsTheRecord(c, s, served, first, second, want);
    NewcomerMadeNothing(c, s, run);
    ArrivesAtTheDoor(c, s, run, second, g);
    var now := After(c, s, run + [Arrive(second)]);
    NoSecondLookup(c, now.threads[1]);
    var look := LookUpAndHit(c, s, run + [Arrive(second)], 1, want, now, g);
    run := run + [Arrive(second)] + look;
    assert After(c, s, run) == Pruned(now, 1, Repeated(now.threads[1], now.clock, want.body));
  }

  /** The same key with another body is refused with 409, and nothing is done for it. */
  lemma ReusedKeyIsRefused(c: Config, s: State, first: Request, second: Request, want: Outcome, g: Guards)
      returns (run: seq<Label>)
    requires Configured(c) && Initial(s) && LetIn(c, first) && LetIn(c, second) && Granted(g, [], s.clock, first, want)
    requires first.key == second.key && c.sha(first.body) != c.sha(second.body)
    ensures IsRun(c, s, run) && Obeys(c, s, run, g)
    ensures var now := After(c, s, run);
            && |now.threads| == 2 && now.threads[0].req == first && now.threads[1].req == second
            && now.threads[0].answer == Served(want.status, want.body)
            && now.threads[1].answer == Refused(409) && now.threads[1].code == [] && MadeNothing(now.data, 1)
  {
    assert IsRun(c, s, []) && Live(s.data.cache, s.clock) == map[];
    NothingSince(s);
    var steps := ServeNew(c, s, [], first, want, g);
    run := [] + [Arrive(first)] + steps;
    NewcomerMadeNothing(c, s, run);
    ArrivesAtTheDoor(c, s, run, second, g);
    var now := After(c, s, run + [Arrive(second)]);
    NoSecondLookup(c, now.threads[1]);
    var look := LookUpAndClash(c, s, run + [Arrive(second)], 1, want, now, g);
    run := run + [Arrive(second)] + look;
  }

  /** A request for a connection, and one to activate an entity, under one key and with one body. */
  function Ask(token: string, w: T.Wire, key: string, body: string): Request {
    Request(POST, ["v1", "connections"], Some(token), w, Some(key), body, Ack("", 0), false)
  }

  function ActivateEntity(id: string, token: string, w: T.Wire, key: string, body: string): Request {
    Request(POST, ["v1", "entities", id, "activate"], Some(token), w, Some(key), body, Ack("", 0), false)
  }

  function Deny(id: string, token: string, w: T.Wire, key: string, body: string): Request {
    Request(POST, ["v1", "requests", id, "deny"], Some(token), w, Some(key), body, Ack("", 0), false)
  }

  /**
   * So a role is no barrier: wherever one token may request connections and another may only register, the second can
   * be handed the answer to any connection request of the first that is accepted and permitted, which it had no right
   * to ask for.
   */
  lemma ReplayCanCrossRoles(c: Config, s: State, x: string, y: string, w: T.Wire, key: string, body: string,
                            id: string, want: Outcome, g: Guards)
      returns (run: seq<Label>)
    requires Configured(c) && Initial(s) && !c.readOnly && T.Admits(c.policy, w, c.sha)
    requires x in c.tokens && RequestConnections in c.tokens[x]
    requires y in c.tokens && Register in c.tokens[y] && RequestConnections !in c.tokens[y]
    requires Granted(g, [], s.clock, Ask(x, w, key, body), want)
    ensures var first, second := Ask(x, w, key, body), ActivateEntity(id, y, w, key, body);
            && IsRun(c, s, run) && Obeys(c, s, run, g) && ToldTheOther(After(c, s, run), first, second, want)
            && want.status in {201, 202} && !Holds(c, second, RoleFor(RouteFor(first)).value)
            && Entry(Activate(id), By(1)) !in After(c, s, run).data.store
  {
    var first, second := Ask(x, w, key, body), ActivateEntity(id, y, w, key, body);
    assert RouteFor(first) == Connection && RouteFor(second) == Activation(id);
    run := ReplayCanCrossRoutes(c, s, first, second, want, g);
  }

  /** Nor is the path: an approver who denies two requests with one key and one reason has denied only the first. */
  lemma ReplayCanCrossRequests(c: Config, s: State, x: string, w: T.Wire, key: string, body: string,
                               id: string, other: string, want: Outcome, g: Guards)
      returns (run: seq<Label>)
    requires Configured(c) && Initial(s) && !c.readOnly && T.Admits(c.policy, w, c.sha)
    requires x in c.tokens && Approve in c.tokens[x] && Granted(g, [], s.clock, Deny(id, x, w, key, body), want)
    ensures var first, second := Deny(id, x, w, key, body), Deny(other, x, w, key, body);
            && IsRun(c, s, run) && Obeys(c, s, run, g) && ToldTheOther(After(c, s, run), first, second, want)
            && Entry(Decided(other), By(1)) !in After(c, s, run).data.store
  {
    var first, second := Deny(id, x, w, key, body), Deny(other, x, w, key, body);
    assert RouteFor(first) == Denial(id) && RouteFor(second) == Denial(other);
    run := ReplayCanCrossRoutes(c, s, first, second, want, g);
  }
}
