/**
 * What a client gets for the method and path it sends: who may ask, what is done, what is answered. Everything here is
 * about the method and path as they are written, over every run.
 */
module PlanePaths {
  import opened Wrappers
  import opened Plane
  import opened PlanePrograms
  import opened PlaneContainment
  import opened PlaneLocks
  import opened PlaneIdempotency
  import opened PlaneAuthority
  import opened PlaneSolo

  /** `p` is `v1/<kind>/<some id>/<verb>`. */
  predicate On(p: seq<string>, kind: string, verb: string) {
    |p| == 4 && p[0] == "v1" && p[1] == kind && p[3] == verb
  }

  /** Paths anyone may read. */
  predicate Open(req: Request) {
    req.verb.GET? && req.path in [["healthz"], ["readyz"], ["metrics"], ["v1", "jwks.json"]]
  }

  /** The role a method and path need, for those that lead anywhere. */
  function RoleAt(verb: Method, p: seq<string>): Option<Role> {
    if verb.GET? then
      if p in [["v1", "entities"], ["v1", "posture"], ["v1", "offers"], ["v1", "connections"], ["v1", "requests"],
               ["v1", "mediators"], ["portal"]] then Some(ReadEstate)
      else if |p| == 3 && p[0] == "v1" && (p[1] == "entities" || p[1] == "connections") then Some(ReadEstate)
      else if On(p, "mediators", "contracts") || p == ["v1", "revocations"] then Some(Mediator)
      else if p == ["v1", "audit", "verify"] then Some(Compliance)
      else None
    else if verb.POST? then
      if On(p, "entities", "activate") then Some(Register)
      else if p == ["v1", "connections"] then Some(RequestConnections)
      else if On(p, "requests", "approve") || On(p, "requests", "deny") then Some(Approve)
      else if p == ["v1", "quarantine"] || p == ["v1", "quarantine", "clear"] then Some(Secops)
      else if On(p, "connections", "revoke") then Some(Secops)
      else if On(p, "mediators", "ack") then Some(Mediator)
      else None
    else None
  }

  /** The request comes over a transport that is believed, with a registered token that has the role. */
  ghost predicate Shown(c: Config, req: Request, role: Role)
    requires Configured(c)
  {
    && T.Admits(c.policy, req.wire, c.sha)
    && req.bearer.Some? && req.bearer.value in c.tokens && role in c.tokens[req.bearer.value]
  }

  /** Comes over a transport that is believed, with some registered token. */
  ghost predicate Known(c: Config, req: Request)
    requires Configured(c)
  {
    T.Admits(c.policy, req.wire, c.sha) && req.bearer.Some? && req.bearer.value in c.tokens
  }

  // ---------------------------------------------------------------------------
  // The door
  // ---------------------------------------------------------------------------

  lemma RoleIsRoleAt(verb: Method, p: seq<string>)
    ensures RoleFor(RouteOf(verb, p)) == RoleAt(verb, p)
    ensures RouteOf(verb, p).NoRoute? <==> !verb.OtherMethod? && RoleAt(verb, p).None?
  {
  }

  /** What an arrival is told at once, in the order the questions are asked; otherwise it is let in. */
  ghost function AtOnce(c: Config, req: Request): Option<nat>
    requires Configured(c)
  {
    var role := RoleAt(req.verb, req.path);
    if !Known(c, req) then Some(401)
    else if c.readOnly && req.verb in {POST, PUT, DELETE, PATCH} && !On(req.path, "mediators", "ack") then Some(409)
    else if req.verb.OtherMethod? then Some(405)
    else if role.None? then Some(404)
    else if !Shown(c, req, role.value) then Some(403)
    else if req.verb.GET? && req.path == ["portal"] && !c.portal then Some(404)
    else if req.verb.GET? && req.path == ["v1", "revocations"] && !c.hasFeed then Some(500)
    else if req.verb.POST? && !On(req.path, "mediators", "ack") && req.key.None? then Some(400)
    else None
  }

  lemma NotOpen(req: Request)
    ensures Open(req) <==> req.verb.GET? && (|| req.path == ["healthz"] || req.path == ["readyz"]
                                             || req.path == ["metrics"] || req.path == ["v1", "jwks.json"])
  {
  }

  lemma KnownIsAuthenticated(c: Config, req: Request)
    requires Configured(c)
    ensures Authenticate(c, req).Some? <==> Known(c, req)
    ensures forall role :: Holds(c, req, role) <==> Shown(c, req, role)
  {
  }

  /** What the route asks of a known caller. */
  lemma EnterIsAtOnce(c: Config, req: Request, roles: set<Role>)
    requires Configured(c) && Authenticate(c, req) == Some(roles)
    ensures match AtOnce(c, req)
            case Some(status) => Enter(c, req, roles) == Ended(req, Refused(status))
            case None => Enter(c, req, roles).answer.Waiting? && Enter(c, req, roles).code != []
    ensures Enter(c, req, roles).req == req
  {
    RoleIsRoleAt(req.verb, req.path);
    KnownIsAuthenticated(c, req);
  }

  /** Every request, whatever it is: turned away with this status, or let in to wait for its answer. */
  lemma TheDoor(c: Config, req: Request)
    requires Configured(c)
    ensures Dispatch(c, req).req == req
    ensures !Open(req) ==>
              match AtOnce(c, req)
              case Some(status) => Dispatch(c, req) == Ended(req, Refused(status))
              case None => Dispatch(c, req).answer.Waiting? && Dispatch(c, req).code != []
    ensures Open(req) ==> Dispatch(c, req).answer == Served(200, "") || Dispatch(c, req).answer.Waiting?
  {
    NotOpen(req);
    KnownIsAuthenticated(c, req);
    if Known(c, req) { EnterIsAtOnce(c, req, Authenticate(c, req).value); }
  }

  // ---------------------------------------------------------------------------
  // What is done, and what is answered
  // ---------------------------------------------------------------------------

  /** The one thing a request may put on the logs. */
  function Deed(c: Config, req: Request): Option<Act> {
    var p := req.path;
    if !req.verb.POST? then None
    else if p == ["v1", "quarantine"] then Some(Quarantine(c.party(req.body)))
    else if p == ["v1", "quarantine", "clear"] then Some(Clear(c.party(req.body)))
    else if On(p, "connections", "revoke") then Some(Revoke(p[2]))
    else if On(p, "entities", "activate") then Some(Activate(p[2]))
    else if p == ["v1", "connections"] then Some(Requested)
    else if On(p, "requests", "approve") || On(p, "requests", "deny") then Some(Decided(p[2]))
    else None
  }

  /** Which requests may reach the deny-list. */
  predicate Denylists(req: Request) {
    req.verb.POST? && (req.path == ["v1", "quarantine"] || On(req.path, "connections", "revoke"))
  }

  /** Which requests may reach the evidence chain. */
  predicate Evidences(req: Request) {
    req.verb.POST? && !On(req.path, "entities", "activate")
  }

  /** The statuses a request may be served with; none means it never is. */
  function Answers(req: Request): set<nat> {
    var p := req.path;
    if Open(req) then {200}
    else if RoleAt(req.verb, p).None? then {}
    else if req.verb.GET? then {200}
    else if On(p, "mediators", "ack") then {204}
    else if On(p, "entities", "activate") || On(p, "requests", "deny") then {200}
    else if On(p, "requests", "approve") then {201}
    else if p == ["v1", "connections"] then {201, 202}
    else {202}
  }

  /** An operation a request with this method and path may perform. */
  predicate Meant(c: Config, req: Request, op: Op) {
    match op
    case Commit(a) => Deed(c, req) == Some(a)
    case Issue(a) => Deed(c, req) == Some(a) && Evidences(req)
    case Record(a) => Deed(c, req) == Some(a) && Evidences(req)
    case Publish(a) => Deed(c, req) == Some(a) && Denylists(req) && c.hasFeed
    case Acknowledge => req.verb.POST? && On(req.path, "mediators", "ack")
    case Reply(statuses) => statuses == Answers(req)
    case Refresh => req == IDLE
    case _ => true
  }

  /** By its own method and path: what is ahead of a thread, what it was told, and that it was let in. */
  ghost predicate ByThePath(c: Config, t: Thread)
    requires Configured(c)
  {
    && (forall ins <- t.code :: ins.Do? ==> Meant(c, t.req, ins.op))
    && (t.answer.Served? ==> t.answer.status in Answers(t.req))
    && (Answers(t.req) != {} && !t.answer.Refused? && !Open(t.req) ==>
          RoleAt(t.req.verb, t.req.path).Some? && Shown(c, t.req, RoleAt(t.req.verb, t.req.path).value))
  }

  lemma DeedIsAct(c: Config, req: Request)
    ensures Deed(c, req) == if Mutating(req) then Some(ActOf(c, req)) else None
    ensures Mutating(req) ==> Answers(req) == Statuses(RouteOf(req.verb, req.path))
    ensures Mutating(req) ==> (Denylists(req) <==> ActOf(c, req).Quarantine? || ActOf(c, req).Revoke?)
    ensures Mutating(req) ==> (Evidences(req) <==> !ActOf(c, req).Activate?)
  {
  }

  lemma WorkIsMeant(c: Config, req: Request, ins: Instr)
    requires Mutating(req) && ins in Work(c, req, RouteOf(req.verb, req.path)) && ins.Do?
    ensures Meant(c, req, ins.op)
  {
    var r := RouteOf(req.verb, req.path);
    DeedIsAct(c, req);
    WorkOps(c, req, r, ins);
    if ins.op.Issue? { IssueIsOwn(c, req, ins); }
    if r.Activation? { assert ins == Do(Commit(Activate(r.id))); }
  }

  lemma IssueIsOwn(c: Config, req: Request, ins: Instr)
    requires Mutating(req) && ins in Work(c, req, RouteOf(req.verb, req.path)) && ins.Do? && ins.op.Issue?
    ensures ins.op.act == ActOf(c, req)
  {
  }

  lemma WriteIsMeant(c: Config, req: Request, ins: Instr)
    requires Mutating(req) && ins in RouteCode(c, req, RouteOf(req.verb, req.path)) && ins.Do?
    ensures Meant(c, req, ins.op)
  {
    DeedIsAct(c, req);
    if ins in Work(c, req, RouteOf(req.verb, req.path)) { WorkIsMeant(c, req, ins); }
  }

  lemma ReadAnswers(c: Config, req: Request, ins: Instr)
    requires var r := RouteOf(req.verb, req.path); RoleFor(r).Some? && !Mutates(r) && ins in RouteCode(c, req, r)
    requires !Open(req)
    ensures ins.Do? && ins.op.Reply? ==> ins.op.statuses == Answers(req)
    ensures ins.Do? && ins.op.Acknowledge? ==> req.verb.POST? && On(req.path, "mediators", "ack")
  {
    RoleIsRoleAt(req.verb, req.path);
    ReadsAreQuiet(c, req, RouteOf(req.verb, req.path), ins);
  }

  lemma ReadIsMeant(c: Config, req: Request, ins: Instr)
    requires var r := RouteOf(req.verb, req.path); RoleFor(r).Some? && !Mutates(r) && ins in RouteCode(c, req, r)
    requires !Open(req) && ins.Do?
    ensures Meant(c, req, ins.op)
  {
    ReadsAreQuiet(c, req, RouteOf(req.verb, req.path), ins);
    ReadAnswers(c, req, ins);
  }

  // ---------------------------------------------------------------------------
  // Over every run
  // ---------------------------------------------------------------------------

  lemma OpenPagesAreMeant(c: Config, req: Request, ins: Instr)
    requires Open(req) && (ins in [Do(Check), Do(Reply({200}))] || ins in MetricsCode(c.hasFeed)) && ins.Do?
    ensures Meant(c, req, ins.op)
  {
    if ins in MetricsCode(c.hasFeed) {
      MetricsAreQuiet(c.hasFeed, ins);
      if ins.op.Reply? { MetricsReply(c.hasFeed, ins); }
    }
  }

  lemma MetricsReply(hasFeed: bool, ins: Instr)
    requires ins in MetricsCode(hasFeed) && ins.Do? && ins.op.Reply?
    ensures ins.op.statuses == {200}
  {
  }

  lemma OpenProgram(c: Config, req: Request)
    requires Configured(c) && Open(req)
    ensures var t := Dispatch(c, req);
            || t == Ended(req, Served(200, ""))
            || t == Started(req, [Do(Check), Do(Reply({200}))])
            || t == Started(req, MetricsCode(c.hasFeed))
  {
    NotOpen(req);
  }

  lemma LetInProgram(c: Config, req: Request)
    requires Configured(c) && !Open(req) && Dispatch(c, req).code != []
    ensures RoleFor(RouteOf(req.verb, req.path)).Some?
    ensures Dispatch(c, req) == Started(req, RouteCode(c, req, RouteOf(req.verb, req.path)))
    ensures RoleAt(req.verb, req.path).Some? && Shown(c, req, RoleAt(req.verb, req.path).value)
  {
    NotOpen(req);
    TheDoor(c, req);
    DispatchCases(c, req);
    RoleIsRoleAt(req.verb, req.path);
    KnownIsAuthenticated(c, req);
  }

  lemma ArrivesByThePath(c: Config, req: Request)
    requires Configured(c)
    ensures ByThePath(c, Dispatch(c, req))
  {
    var t := Dispatch(c, req);
    TheDoor(c, req);
    if Open(req) {
      OpenProgram(c, req);
      forall ins <- t.code | ins.Do? ensures Meant(c, req, ins.op) { OpenPagesAreMeant(c, req, ins); }
    } else if t.code != [] {
      LetInProgram(c, req);
      forall ins <- t.code | ins.Do? ensures Meant(c, req, ins.op) {
        if Mutating(req) { WriteIsMeant(c, req, ins); } else { ReadIsMeant(c, req, ins); }
      }
    }
  }

  lemma RefreshIsByThePath(c: Config)
    requires Configured(c)
    ensures ByThePath(c, Started(IDLE, RefreshCode()))
  {
    NotOpen(IDLE);
  }

  lemma AnswerAfter(c: Config, s: State, i: nat, o: Outcome)
    requires Configured(c) && Enabled(s, Step(i, o)) && Honest(s.threads[i])
    ensures var t, t' := s.threads[i], ThreadStep(c, s, i, o).threads[i];
            && t'.req == t.req && (t.answer.Refused? ==> t'.answer.Refused?)
            && (t'.answer.Served? && t'.answer != t.answer ==>
                  t.code[0].Do? && t.code[0].op.Reply? && t'.answer.status in t.code[0].op.statuses)
  {
    assert s.threads[i].code[0] in s.threads[i].code;
  }

  lemma StaysByThePath(c: Config, s: State, i: nat, o: Outcome)
    requires Configured(c) && Enabled(s, Step(i, o)) && Honest(s.threads[i]) && ByThePath(c, s.threads[i])
    ensures ByThePath(c, ThreadStep(c, s, i, o).threads[i])
    ensures ThreadStep(c, s, i, o).threads[i].req == s.threads[i].req
  {
    var t, t' := s.threads[i], ThreadStep(c, s, i, o).threads[i];
    assert t.code[0] in t.code;
    AnswerAfter(c, s, i, o);
    GoesOnOrUnwinds(c, s, i, o);
    UnwindReleases(t.held);
  }

  /** An entry of the run is the deed of the request that made it. */
  ghost predicate Owned(c: Config, threads: seq<Thread>, e: Entry) {
    e.maker.By? ==> e.maker.thread < |threads| && Deed(c, threads[e.maker.thread].req) == Some(e.act)
  }

  ghost predicate AllOwned(c: Config, threads: seq<Thread>, d: Data) {
    && (forall e <- d.store :: Owned(c, threads, e))
    && (forall e <- d.evidence :: Owned(c, threads, e) && (e.maker.By? ==> Evidences(threads[e.maker.thread].req)))
    && (forall e <- d.feed ::
          Owned(c, threads, e) && (e.maker.By? ==> c.hasFeed && Denylists(threads[e.maker.thread].req)))
  }

  /** The acknowledgement a mediator is on the ledger with was there before, or posted by a request of the run. */
  ghost predicate Posted(before: map<string, Ack>, threads: seq<Thread>, m: string, a: Ack) {
    || (m in before && before[m] == a)
    || (exists i :: 0 <= i < |threads| && threads[i].req.verb.POST? && On(threads[i].req.path, "mediators", "ack")
                    && threads[i].req.path[2] == m && threads[i].req.ack == a)
  }

  ghost predicate AllPosted(before: map<string, Ack>, threads: seq<Thread>, acks: map<string, Ack>) {
    forall m <- acks :: Posted(before, threads, m, acks[m])
  }

  ghost predicate AsAsked(c: Config, s: State, now: State)
    requires Configured(c)
  {
    && (forall i :: 0 <= i < |now.threads| ==> ByThePath(c, now.threads[i]))
    && AllOwned(c, now.threads, now.data)
    && AllPosted(s.data.acks, now.threads, now.data.acks)
  }

  lemma OwnershipSurvives(c: Config, now: seq<Thread>, next: seq<Thread>, d: Data)
    requires AllOwned(c, now, d) && SameRequests(now, next)
    ensures AllOwned(c, next, d)
  {
  }

  lemma PostsSurvive(before: map<string, Ack>, now: seq<Thread>, next: seq<Thread>, acks: map<string, Ack>)
    requires AllPosted(before, now, acks) && SameRequests(now, next)
    ensures AllPosted(before, next, acks)
  {
    forall m <- acks ensures Posted(before, next, m, acks[m]) {
      assert Posted(before, now, m, acks[m]);
      if i :| 0 <= i < |now| && now[i].req.verb.POST? && On(now[i].req.path, "mediators", "ack")
              && now[i].req.path[2] == m && now[i].req.ack == acks[m]
      {
        assert next[i].req == now[i].req;
      }
    }
  }

  lemma EffectIsOwned(c: Config, d: Data, i: nat, t: Thread, op: Op, o: Outcome, threads: seq<Thread>)
    requires AllOwned(c, threads, d) && i < |threads| && threads[i].req == t.req && Meant(c, t.req, op)
    ensures AllOwned(c, threads, Effect(c, d, i, t, op, o))
  {
    var st, ev, fe := EffectAppends(c, d, i, t, op, o);
    if !op.Issue? && !op.Record? { EvidenceStands(c, d, i, t, op, o); }
  }

  lemma EvidenceStands(c: Config, d: Data, i: nat, t: Thread, op: Op, o: Outcome)
    requires !op.Issue? && !op.Record?
    ensures Effect(c, d, i, t, op, o).evidence == d.evidence
  {
  }

  lemma EffectIsPosted(c: Config, d: Data, i: nat, t: Thread, op: Op, o: Outcome, threads: seq<Thread>,
                       before: map<string, Ack>)
    requires AllPosted(before, threads, d.acks) && i < |threads| && threads[i].req == t.req && Meant(c, t.req, op)
    ensures AllPosted(before, threads, Effect(c, d, i, t, op, o).acks)
  {
    var acks := Effect(c, d, i, t, op, o).acks;
    forall m <- acks ensures Posted(before, threads, m, acks[m]) {
      if m in d.acks && acks[m] == d.acks[m] {
        assert Posted(before, threads, m, d.acks[m]);
      } else {
        assert op.Acknowledge? && m == t.req.path[2] && acks[m] == t.req.ack;
      }
    }
  }

  lemma StepIsAsAsked(c: Config, s: State, now: State, i: nat, o: Outcome)
    requires Configured(c) && Enabled(now, Step(i, o)) && AllHonest(now.threads) && AsAsked(c, s, now)
    ensures AsAsked(c, s, ThreadStep(c, now, i, o))
  {
    var t, next := now.threads[i], ThreadStep(c, now, i, o);
    assert Honest(t) && t.code[0] in t.code;
    StaysByThePath(c, now, i, o);
    assert next.threads == now.threads[i := next.threads[i]];
    assert SameRequests(now.threads, next.threads);
    OwnershipSurvives(c, now.threads, next.threads, now.data);
    PostsSurvive(s.data.acks, now.threads, next.threads, now.data.acks);
    if t.code[0].Do? {
      EffectIsOwned(c, now.data, i, t, t.code[0].op, o, next.threads);
      EffectIsPosted(c, now.data, i, t, t.code[0].op, o, next.threads, s.data.acks);
    }
  }

  lemma ArrivalIsAsAsked(c: Config, s: State, now: State, t: Thread)
    requires Configured(c) && AsAsked(c, s, now) && ByThePath(c, t)
    ensures AsAsked(c, s, now.(threads := now.threads + [t]))
  {
    var next := now.threads + [t];
    assert SameRequests(now.threads, next);
    OwnershipSurvives(c, now.threads, next, now.data);
    PostsSurvive(s.data.acks, now.threads, next, now.data.acks);
  }

  lemma {:induction false} AsAskedAlways(c: Config, s: State, run: seq<Label>)
    requires Configured(c) && Initial(s) && IsRun(c, s, run)
    ensures AsAsked(c, s, After(c, s, run))
    decreases |run|
  {
    if run != [] {
      var front := run[..|run| - 1];
      AsAskedAlways(c, s, front);
      SoundAlways(c, s, front);
      var now := After(c, s, front);
      match run[|run| - 1] {
        case Arrive(req) =>
          ArrivesByThePath(c, req);
          ArrivalIsAsAsked(c, s, now, Dispatch(c, req));
        case RefreshPass =>
          RefreshIsByThePath(c);
          ArrivalIsAsAsked(c, s, now, Started(IDLE, RefreshCode()));
        case SetClock(_) =>
        case Step(i, o) => StepIsAsAsked(c, s, now, i, o);
      }
    }
  }

  // ---------------------------------------------------------------------------
  // Path by path
  // ---------------------------------------------------------------------------

  /** Thread `i` is on this log with `a` and with nothing else. */
  ghost predicate JustThat(log: seq<Entry>, i: nat, a: Act) {
    Entry(a, By(i)) in log && forall e <- log :: e.maker == By(i) ==> e.act == a
  }

  predicate NotOn(log: seq<Entry>, i: nat) {
    forall e <- log :: e.maker != By(i)
  }

  /** Thread `i` of the run was served. */
  ghost predicate WasServed(c: Config, s: State, run: seq<Label>, i: nat, verb: Method)
    requires Configured(c)
  {
    && Initial(s) && IsRun(c, s, run) && i < |After(c, s, run).threads|
    && After(c, s, run).threads[i].answer.Served? && After(c, s, run).threads[i].req.verb == verb
  }

  /** What is known of any served request: its status is one its path has, and who sent it may. */
  lemma ServedByThePath(c: Config, s: State, run: seq<Label>, i: nat)
    requires Configured(c) && Initial(s) && IsRun(c, s, run)
    requires i < |After(c, s, run).threads| && After(c, s, run).threads[i].answer.Served?
    ensures var t := After(c, s, run).threads[i];
            && t.answer.status in Answers(t.req)
            && (Open(t.req) || (&& RoleAt(t.req.verb, t.req.path).Some?
                                && Shown(c, t.req, RoleAt(t.req.verb, t.req.path).value)))
  {
    AsAskedAlways(c, s, run);
    assert ByThePath(c, After(c, s, run).threads[i]);
  }

  /** A served order to quarantine: on all three logs, the deny-list if there is one, for the party it names; 202. */
  lemma ServedQuarantine(c: Config, s: State, run: seq<Label>, i: nat)
    requires Configured(c) && WasServed(c, s, run, i, POST)
    requires After(c, s, run).threads[i].req.path == ["v1", "quarantine"]
    ensures var now := After(c, s, run);
            var t, a := now.threads[i], Quarantine(c.party(now.threads[i].req.body));
            && t.answer.status == 202 && Shown(c, t.req, Secops)
            && JustThat(now.data.store, i, a) && JustThat(now.data.evidence, i, a)
            && (if c.hasFeed then JustThat(now.data.feed, i, a) else NotOn(now.data.feed, i))
  {
    ServedByThePath(c, s, run, i);
    DoneAndNoMore(c, s, run, i);
    if !c.hasFeed { NoFeedNoEntry(c, s, run, i); }
  }

  /** A served order to lift a quarantine: in the register and the evidence, never the deny-list; 202. */
  lemma ServedClearing(c: Config, s: State, run: seq<Label>, i: nat)
    requires Configured(c) && WasServed(c, s, run, i, POST)
    requires After(c, s, run).threads[i].req.path == ["v1", "quarantine", "clear"]
    ensures var now := After(c, s, run);
            var t, a := now.threads[i], Clear(c.party(now.threads[i].req.body));
            && t.answer.status == 202 && Shown(c, t.req, Secops)
            && JustThat(now.data.store, i, a) && JustThat(now.data.evidence, i, a) && NotOn(now.data.feed, i)
  {
    ServedByThePath(c, s, run, i);
    DoneAndNoMore(c, s, run, i);
  }

  /** A served order to revoke a connection: on all three logs for the connection in its path; 202. */
  lemma ServedRevocation(c: Config, s: State, run: seq<Label>, i: nat, cid: string)
    requires Configured(c) && WasServed(c, s, run, i, POST)
    requires After(c, s, run).threads[i].req.path == ["v1", "connections", cid, "revoke"]
    ensures var now := After(c, s, run);
            var t, a := now.threads[i], Revoke(cid);
            && t.answer.status == 202 && Shown(c, t.req, Secops)
            && JustThat(now.data.store, i, a) && JustThat(now.data.evidence, i, a)
            && (if c.hasFeed then JustThat(now.data.feed, i, a) else NotOn(now.data.feed, i))
  {
    ServedByThePath(c, s, run, i);
    DoneAndNoMore(c, s, run, i);
    if !c.hasFeed { NoFeedNoEntry(c, s, run, i); }
  }

  /** A served activation: in the register alone, for the entity in its path; 200. */
  lemma ServedActivation(c: Config, s: State, run: seq<Label>, i: nat, id: string)
    requires Configured(c) && WasServed(c, s, run, i, POST)
    requires After(c, s, run).threads[i].req.path == ["v1", "entities", id, "activate"]
    ensures var now := After(c, s, run);
            && now.threads[i].answer.status == 200 && Shown(c, now.threads[i].req, Register)
            && JustThat(now.data.store, i, Activate(id)) && NotOn(now.data.evidence, i) && NotOn(now.data.feed, i)
  {
    ServedByThePath(c, s, run, i);
    DoneAndNoMore(c, s, run, i);
  }

  /** Only that act, if any. */
  predicate OnlyThat(log: seq<Entry>, i: nat, a: Act) {
    forall e <- log :: e.maker == By(i) ==> e.act == a
  }

  /** A served connection request, approval or denial: nothing but its own act, never the deny-list; its own status. */
  lemma ServedByTheIssuer(c: Config, s: State, run: seq<Label>, i: nat, id: string)
    requires Configured(c) && WasServed(c, s, run, i, POST)
    requires After(c, s, run).threads[i].req.path in
               [["v1", "connections"], ["v1", "requests", id, "approve"], ["v1", "requests", id, "deny"]]
    ensures var now := After(c, s, run);
            var t := now.threads[i];
            && NotOn(now.data.feed, i)
            && (t.req.path == ["v1", "connections"] ==>
                  && t.answer.status in {201, 202} && Shown(c, t.req, RequestConnections)
                  && OnlyThat(now.data.store, i, Requested) && OnlyThat(now.data.evidence, i, Requested))
            && (t.req.path != ["v1", "connections"] ==>
                  && Shown(c, t.req, Approve)
                  && OnlyThat(now.data.store, i, Decided(id)) && OnlyThat(now.data.evidence, i, Decided(id)))
            && (t.req.path == ["v1", "requests", id, "approve"] ==> t.answer.status == 201)
            && (t.req.path == ["v1", "requests", id, "deny"] ==> t.answer.status == 200)
  {
    ServedByThePath(c, s, run, i);
    AsAskedAlways(c, s, run);
    var p := After(c, s, run).threads[i].req.path;
    assert p == ["v1", "connections"] || p == ["v1", "requests", id, "approve"] || p == ["v1", "requests", id, "deny"];
  }

  /** What a served request that is no issuer's was to do is done, and it did nothing else. */
  lemma DoneAndNoMore(c: Config, s: State, run: seq<Label>, i: nat)
    requires Configured(c) && WasServed(c, s, run, i, POST)
    requires var d := Deed(c, After(c, s, run).threads[i].req); d.Some? && Ordinary(d.value)
    ensures var now := After(c, s, run);
            var req, a := now.threads[i].req, Deed(c, now.threads[i].req).value;
            && JustThat(now.data.store, i, a)
            && (if Evidences(req) then JustThat(now.data.evidence, i, a) else NotOn(now.data.evidence, i))
            && (if Denylists(req) then c.hasFeed ==> JustThat(now.data.feed, i, a) else NotOn(now.data.feed, i))
  {
    var now := After(c, s, run);
    var req := now.threads[i].req;
    AsAskedAlways(c, s, run);
    DeedIsAct(c, req);
    SubjectIsDeed(c, req);
    AcceptedMeansContained(c, s, run, i);
  }

  lemma NoFeedNoEntry(c: Config, s: State, run: seq<Label>, i: nat)
    requires Configured(c) && Initial(s) && IsRun(c, s, run) && !c.hasFeed
    ensures NotOn(After(c, s, run).data.feed, i)
  {
    AsAskedAlways(c, s, run);
  }

  lemma SubjectIsDeed(c: Config, req: Request)
    requires Deed(c, req).Some? && Ordinary(Deed(c, req).value)
    ensures Subject(c, req) == Deed(c, req)
    ensures Recorded(Deed(c, req).value) <==> Evidences(req)
    ensures Listed(c, Deed(c, req).value) <==> Denylists(req) && c.hasFeed
  {
  }

  // ---------------------------------------------------------------------------
  // The ledger
  // ---------------------------------------------------------------------------

  lemma AckPathIs(p: seq<string>, m: string)
    requires On(p, "mediators", "ack") && p[2] == m
    ensures p == ["v1", "mediators", m, "ack"]
  {
  }

  lemma PostedOnThePath(before: map<string, Ack>, threads: seq<Thread>, m: string, a: Ack)
    requires Posted(before, threads, m, a) && !(m in before && before[m] == a)
    ensures exists i :: 0 <= i < |threads| && threads[i].req.verb.POST?
                        && threads[i].req.path == ["v1", "mediators", m, "ack"] && threads[i].req.ack == a
  {
    var i :| 0 <= i < |threads| && threads[i].req.verb.POST? && On(threads[i].req.path, "mediators", "ack")
             && threads[i].req.path[2] == m && threads[i].req.ack == a;
    AckPathIs(threads[i].req.path, m);
  }

  /** What a mediator is on the ledger with was there before, or is what a request of the run posted on its path. */
  lemma LedgerIsPosted(c: Config, s: State, run: seq<Label>, m: string)
    requires Configured(c) && Initial(s) && IsRun(c, s, run) && m in After(c, s, run).data.acks
    ensures var now := After(c, s, run);
            var a := now.data.acks[m];
            || (m in s.data.acks && s.data.acks[m] == a)
            || (exists i :: 0 <= i < |now.threads| && now.threads[i].req.verb.POST?
                            && now.threads[i].req.path == ["v1", "mediators", m, "ack"] && now.threads[i].req.ack == a)
  {
    AsAskedAlways(c, s, run);
    var now := After(c, s, run);
    assert Posted(s.data.acks, now.threads, m, now.data.acks[m]);
    if !(m in s.data.acks && s.data.acks[m] == now.data.acks[m]) {
      PostedOnThePath(s.data.acks, now.threads, m, now.data.acks[m]);
    }
  }

  /** The program of an acknowledgement from where `k` instructions are behind it. */
  function Acking(k: nat): Code
    requires k <= 5
  {
    [Do(Check), Acquire(AckLock), Do(Acknowledge), Release(AckLock), Do(Reply({204}))][k..]
  }

  predicate OnItsWay(t: Thread) {
    Acks(t.req) ==>
      if t.answer.Refused? then forall ins <- t.code :: ins.Release?
      else exists k: nat :: k <= 5 && t.code == Acking(k)
  }

  lemma ArrivesOnItsWay(c: Config, req: Request)
    requires Configured(c)
    ensures OnItsWay(Dispatch(c, req))
  {
    if Acks(req) {
      if Holds(c, req, Mediator) { AckProgram(c, req); assert Dispatch(c, req).code == Acking(0); }
      DispatchCases(c, req);
    }
  }

  lemma RefusedStaysRefused(c: Config, now: State, i: nat, o: Outcome)
    requires CanStep(now, i) && now.threads[i].answer.Refused? && now.threads[i].code[0].Release?
    ensures var t, t' := now.threads[i], ThreadStep(c, now, i, o).threads[i];
            t'.req == t.req && t'.answer == t.answer && t'.code == t.code[1..]
  {
  }

  lemma GoesOnAcking(c: Config, now: State, i: nat, o: Outcome, k: nat)
    requires Enabled(now, Step(i, o)) && k < 5 && now.threads[i].code == Acking(k) && !now.threads[i].answer.Refused?
    ensures var t, t' := now.threads[i], ThreadStep(c, now, i, o).threads[i];
            && t'.req == t.req
            && if k == 0 && o.Fail? then t'.answer.Refused? && t'.code == Unwind(t.held)
               else !t'.answer.Refused? && t'.code == Acking(k + 1)
  {
    assert Acking(k)[1..] == Acking(k + 1);
  }

  lemma StaysOnItsWay(c: Config, now: State, i: nat, o: Outcome)
    requires Enabled(now, Step(i, o)) && Acks(now.threads[i].req) && OnItsWay(now.threads[i])
    ensures OnItsWay(ThreadStep(c, now, i, o).threads[i])
    ensures var t, t' := now.threads[i], ThreadStep(c, now, i, o).threads[i];
            !t.answer.Refused? && t'.answer.Refused? ==> t.code[0] == Do(Check)
  {
    var t := now.threads[i];
    UnwindReleases(t.held);
    if t.answer.Refused? {
      assert t.code == [t.code[0]] + t.code[1..] && t.code[0] in t.code;
      RefusedStaysRefused(c, now, i, o);
    } else {
      var k: nat :| k <= 5 && t.code == Acking(k);
      GoesOnAcking(c, now, i, o, k);
    }
  }

  lemma StepKeepsRequests(c: Config, now: State, i: nat, o: Outcome)
    requires CanStep(now, i)
    ensures ThreadStep(c, now, i, o).threads[i].req == now.threads[i].req
  {
  }

  lemma {:induction false} OnItsWayAlways(c: Config, s: State, run: seq<Label>)
    requires Configured(c) && Initial(s) && IsRun(c, s, run)
    ensures forall t <- After(c, s, run).threads :: OnItsWay(t)
    decreases |run|
  {
    if run != [] {
      var front, last := run[..|run| - 1], run[|run| - 1];
      OnItsWayAlways(c, s, front);
      if last.Arrive? { ArrivesOnItsWay(c, last.req); }
      var now := After(c, s, front);
      if last.Step? {
        StepKeepsRequests(c, now, last.i, last.o);
        if Acks(now.threads[last.i].req) { StaysOnItsWay(c, now, last.i, last.o); }
      }
    }
  }

  /** Once its body was read, no step of any run refuses an acknowledgement. */
  lemma OnlyItsBodyCanRefuseIt(c: Config, s: State, run: seq<Label>, i: nat, o: Outcome)
    requires Configured(c) && Initial(s) && IsRun(c, s, run) && Enabled(After(c, s, run), Step(i, o))
    requires var t := After(c, s, run).threads[i]; t.req.verb.POST? && On(t.req.path, "mediators", "ack")
    ensures var now := After(c, s, run);
            !now.threads[i].answer.Refused? && ThreadStep(c, now, i, o).threads[i].answer.Refused? ==>
              now.threads[i].code[0] == Do(Check)
  {
    OnItsWayAlways(c, s, run);
    StaysOnItsWay(c, After(c, s, run), i, o);
  }

  /** A served acknowledgement: 204, from a mediator, and this one or a later one is on the ledger for its path. */
  lemma ServedAck(c: Config, s: State, run: seq<Label>, i: nat, m: string)
    requires Configured(c) && WasServed(c, s, run, i, POST)
    requires After(c, s, run).threads[i].req.path == ["v1", "mediators", m, "ack"]
    ensures var now := After(c, s, run);
            var t := now.threads[i];
            && t.answer.status == 204 && Shown(c, t.req, Mediator)
            && m in now.data.acks && t.req.ack.seqNo <= now.data.acks[m].seqNo
            && NotOn(now.data.store, i) && NotOn(now.data.evidence, i) && NotOn(now.data.feed, i)
  {
    ServedByThePath(c, s, run, i);
    AsAskedAlways(c, s, run);
    AckLands(c, s, run, i);
  }

  // ---------------------------------------------------------------------------
  // Looking before revoking, and refreshing
  // ---------------------------------------------------------------------------

  /** A revocation looks its connection up in one hold of the register, lets go, and revokes in another. */
  lemma RevocationLooksFirst(c: Config, req: Request, cid: string) returns (j: nat, k: nat, l: nat)
    requires Configured(c) && req.verb.POST? && req.path == ["v1", "connections", cid, "revoke"]
    requires AtOnce(c, req).None?
    ensures var code := Dispatch(c, req).code;
            && j < k < l < |code| && code[j] == Do(Look(StoreLock)) && code[k] == Release(StoreLock)
            && code[l] == Do(Commit(Revoke(cid)))
  {
    assert !Open(req) by { NotOpen(req); }
    TheDoor(c, req);
    LetInProgram(c, req);
    assert RouteOf(req.verb, req.path) == RevokeConnection(cid);
    BehindIsRest(c, Dispatch(c, req));
    var rest := Rest(c, req);
    assert rest[2] == Do(Look(StoreLock)) && rest[3] == Release(StoreLock) && rest[5] == Do(Commit(Revoke(cid)));
    assert forall i :: 0 <= i < |rest| ==> Dispatch(c, req).code[i + 4] == rest[i];
    j, k, l := 6, 7, 9;
  }

  predicate NoRefresh(run: seq<Label>) {
    forall lab <- run :: !lab.RefreshPass?
  }

  predicate NeverRefreshes(code: Code) {
    forall ins <- code :: ins != Do(Refresh)
  }

  lemma RequestNeverRefreshes(c: Config, req: Request)
    requires Configured(c)
    ensures NeverRefreshes(Dispatch(c, req).code)
  {
    ArrivesByThePath(c, req);
    DispatchKeeps(c, req);
    OnlyIdleRefreshes(c, Dispatch(c, req));
    IdleIsTurnedAway(c);
  }

  lemma DispatchKeeps(c: Config, req: Request)
    requires Configured(c)
    ensures Dispatch(c, req).req == req
  {
    DispatchCases(c, req);
  }

  lemma OnlyIdleRefreshes(c: Config, t: Thread)
    requires Configured(c) && ByThePath(c, t)
    ensures NeverRefreshes(t.code) || t.req == IDLE
  {
    if ins :| ins in t.code && ins == Do(Refresh) {
      assert Meant(c, t.req, ins.op);
    }
  }

  lemma IdleIsTurnedAway(c: Config)
    requires Configured(c)
    ensures Dispatch(c, IDLE).code == []
  {
    TheDoor(c, IDLE);
    NotOpen(IDLE);
    assert RoleAt(IDLE.verb, IDLE.path).None?;
  }

  /** Requests never change what a read-only plane serves from: only a refresh pass does. */
  lemma {:induction false} OnlyRefreshChangesTheView(c: Config, s: State, run: seq<Label>)
    requires Configured(c) && Initial(s) && IsRun(c, s, run) && NoRefresh(run)
    ensures After(c, s, run).data.view == s.data.view
    ensures forall t <- After(c, s, run).threads :: NeverRefreshes(t.code)
    decreases |run|
  {
    if run != [] {
      var front, last := run[..|run| - 1], run[|run| - 1];
      assert last in run;
      OnlyRefreshChangesTheView(c, s, front);
      var now := After(c, s, front);
      if last.Arrive? { RequestNeverRefreshes(c, last.req); }
      if last.Step? { StepNeverRefreshes(c, now, last.i, last.o); }
    }
  }

  lemma StepNeverRefreshes(c: Config, now: State, i: nat, o: Outcome)
    requires CanStep(now, i) && NeverRefreshes(now.threads[i].code)
    ensures NeverRefreshes(ThreadStep(c, now, i, o).threads[i].code)
    ensures ThreadStep(c, now, i, o).data.view == now.data.view
  {
    var code := now.threads[i].code;
    assert code[0] in code && code == [code[0]] + code[1..];
    GoesOnOrUnwinds(c, now, i, o);
    UnwindReleases(now.threads[i].held);
    TailNeverRefreshes(code);
  }

  lemma TailNeverRefreshes(code: Code)
    requires code != [] && NeverRefreshes(code)
    ensures NeverRefreshes(code[1..])
  {
    forall ins <- code[1..] ensures ins in code {}
  }

  /** And a pass can bring in any snapshot, changing nothing else. */
  lemma RefreshBringsASnapshot(c: Config, s: State, v: nat) returns (run: seq<Label>)
    requires Configured(c) && Initial(s)
    ensures IsRun(c, s, run) && After(c, s, run).data == s.data.(view := v)
  {
    var step := Step(0, Pass(v, "", 0, 0));
    var t := Started(IDLE, [Acquire(StoreLock), Do(Refresh), Release(StoreLock)]);
    assert RefreshCode() == t.code && IsRun(c, s, []);
    RunExtends(c, s, [], RefreshPass);
    run := [] + [RefreshPass];
    var s1 := s.(threads := [t]);
    assert After(c, s, run) == s1;
    var t1 := t.(held := [StoreLock], code := t.code[1..]);
    assert [] + [StoreLock] == [StoreLock];
    assert ThreadStep(c, s1, 0, step.o) == s1.(owner := map[StoreLock := 0], threads := [t1]);
    RunExtends(c, s, run, step);
    RunExtends(c, s, run + [step], step);
    run := run + [step] + [step];
  }
}
