/**
 * The control plane as a concurrent step system.
 *
 * Every request in flight is a thread: a list of instructions left to run and the stack of locks
 * it holds. A handler is a straight-line program of lock regions; any operation may refuse, which
 * releases the held locks in reverse order and ends the request. The registry, the evidence chain
 * and the feed are logs that an operation appends to, or fails to.
 */
module Plane {
  import opened Wrappers
  import T = Transport

  const IDEMPOTENCY_TTL_SECS: nat := 24 * 3_600

  datatype Role =
    | ReadEstate | Register | RequestConnections | Approve | Secops | Mediator | Compliance | OtherRole(name: string)

  datatype Lock = StoreLock | FeedLock | EvidenceLock | AckLock | CacheLock

  /** What a log entry records. */
  datatype Act =
    | Quarantine(party: string)
    | Clear(party: string)
    | Revoke(cid: string)
    | Activate(id: string)
    | Requested
    | Decided(request: string)

  /** Who appended an entry: a request of this run, or somebody before it. */
  datatype Maker = Prior | By(thread: nat)

  datatype Entry = Entry(act: Act, maker: Maker)

  datatype Op =
    | Stamp                          // read the injected clock
    | Lookup                         // drop expired records, then look the key up
    | Check                          // parse and validate the body
    | Look(l: Lock)                  // read one component
    | Commit(act: Act)               // append to the state log
    | Issue(act: Act)                // run the issuer over state and evidence
    | Record(act: Act)               // append to the evidence chain
    | Publish(act: Act)              // append to the revocation feed
    | Acknowledge                    // write the acknowledgement ledger
    | Reply(statuses: set<nat>)      // the handler returns
    | Remember                       // insert into the idempotency cache
    | Refresh                        // re-read the state from disk

  datatype Instr = Acquire(l: Lock) | Release(l: Lock) | Do(op: Op)

  type Code = seq<Instr>

  datatype Method = GET | POST | PUT | DELETE | PATCH | OtherMethod

  datatype Ack = Ack(setHash: string, seqNo: nat)

  datatype Request = Request(
    verb: Method,
    path: seq<string>,
    bearer: Option<string>,
    wire: T.Wire,
    key: Option<string>,
    body: string,
    ack: Ack,
    cidAsked: bool)

  /** A refresh pass serves no request. */
  const IDLE := Request(OtherMethod, [], None, T.Wire(None, map[]), None, "", Ack("", 0), false)

  /** What a client is told. A refusal carries whatever status the error maps to. */
  datatype Answer =
    | Waiting
    | Served(status: nat, body: string)
    | Replayed(status: nat, body: string)
    | Refused(status: nat)

  datatype Thread = Thread(
    req: Request,
    held: seq<Lock>,
    code: Code,
    stamp: nat,       // the clock reading the idempotency record is dated with
    begun: nat,       // the clock when the lookup missed and the handler began
    answer: Answer)

  datatype Remembered = Remembered(expiry: nat, hash: seq<bv8>, body: string)

  datatype Data = Data(
    store: seq<Entry>,
    evidence: seq<Entry>,
    feed: seq<Entry>,
    acks: map<string, Ack>,
    cache: map<string, Remembered>,
    view: nat)        // which snapshot of the state a read-only plane serves

  datatype State = State(data: Data, owner: map<Lock, nat>, threads: seq<Thread>, clock: nat)

  /** What does not change while the plane runs. */
  datatype Config = Config(
    tokens: map<string, set<Role>>,
    policy: T.Policy,
    readOnly: bool,
    hasFeed: bool,
    portal: bool,
    sha: T.Digest,
    party: string -> string)   // the "party" field of a body

  ghost predicate Configured(c: Config) {
    T.WellFormed(c.policy)
  }

  // ---------------------------------------------------------------------------
  // Authentication and routing
  // ---------------------------------------------------------------------------

  /** The roles a request authenticates to, if it does. */
  ghost function Authenticate(c: Config, req: Request): Option<set<Role>>
    requires Configured(c)
  {
    if req.bearer.None? || !T.Admits(c.policy, req.wire, c.sha) || req.bearer.value !in c.tokens then None
    else Some(c.tokens[req.bearer.value])
  }

  ghost predicate Holds(c: Config, req: Request, role: Role)
    requires Configured(c)
  {
    Authenticate(c, req).Some? && role in Authenticate(c, req).value
  }

  datatype Route =
    | EstateRead | PortalPage | ContractSet | AckSet(mediator: string) | MediatorStatus | Revocations | AuditHead
    | Activation(id: string) | Connection | Approval(id: string) | Denial(id: string)
    | QuarantineParty | ClearParty | RevokeConnection(cid: string)
    | NoRoute | BadMethod

  function GetRoute(p: seq<string>): Route {
    if p == ["v1", "entities"] || p == ["v1", "posture"] || p == ["v1", "offers"]
       || p == ["v1", "connections"] || p == ["v1", "requests"] then EstateRead
    else if |p| == 3 && p[0] == "v1" && (p[1] == "entities" || p[1] == "connections") then EstateRead
    else if p == ["portal"] then PortalPage
    else if |p| == 4 && p[0] == "v1" && p[1] == "mediators" && p[3] == "contracts" then ContractSet
    else if p == ["v1", "mediators"] then MediatorStatus
    else if p == ["v1", "revocations"] then Revocations
    else if p == ["v1", "audit", "verify"] then AuditHead
    else NoRoute
  }

  predicate IsAckPath(p: seq<string>) {
    |p| == 4 && p[0] == "v1" && p[1] == "mediators" && p[3] == "ack"
  }

  function PostRoute(p: seq<string>): Route {
    if |p| == 4 && p[0] == "v1" && p[1] == "entities" && p[3] == "activate" then Activation(p[2])
    else if p == ["v1", "connections"] then Connection
    else if |p| == 4 && p[0] == "v1" && p[1] == "requests" && p[3] == "approve" then Approval(p[2])
    else if |p| == 4 && p[0] == "v1" && p[1] == "requests" && p[3] == "deny" then Denial(p[2])
    else if p == ["v1", "quarantine"] then QuarantineParty
    else if p == ["v1", "quarantine", "clear"] then ClearParty
    else if |p| == 4 && p[0] == "v1" && p[1] == "connections" && p[3] == "revoke" then RevokeConnection(p[2])
    else if IsAckPath(p) then AckSet(p[2])
    else NoRoute
  }

  function RouteOf(verb: Method, p: seq<string>): Route {
    match verb
    case GET => GetRoute(p)
    case POST => PostRoute(p)
    case OtherMethod => BadMethod
    case _ => NoRoute
  }

  function RoleFor(r: Route): Option<Role> {
    match r
    case EstateRead | PortalPage | MediatorStatus => Some(ReadEstate)
    case ContractSet | AckSet(_) | Revocations => Some(Mediator)
    case AuditHead => Some(Compliance)
    case Activation(_) => Some(Register)
    case Connection => Some(RequestConnections)
    case Approval(_) | Denial(_) => Some(Approve)
    case QuarantineParty | ClearParty | RevokeConnection(_) => Some(Secops)
    case NoRoute | BadMethod => None
  }

  predicate Mutates(r: Route) {
    || r.Activation? || r.Connection? || r.Approval? || r.Denial?
    || r.QuarantineParty? || r.ClearParty? || r.RevokeConnection?
  }

  predicate Mutating(req: Request) {
    Mutates(RouteOf(req.verb, req.path))
  }

  // ---------------------------------------------------------------------------
  // Handlers as programs
  // ---------------------------------------------------------------------------

  /** `body` run with `l` held. */
  function Under(l: Lock, body: Code): Code {
    [Acquire(l)] + body + [Release(l)]
  }

  function Region(l: Lock, op: Op): Code {
    Under(l, [Do(op)])
  }

  function IssuerRun(act: Act): Code {
    Under(StoreLock, Region(EvidenceLock, Issue(act)))
  }

  /** Cut in the register, then on the evidence chain, then on the deny-list. */
  function Contain(act: Act, hasFeed: bool): Code {
    Region(StoreLock, Commit(act)) + Region(EvidenceLock, Record(act))
    + if hasFeed then Region(FeedLock, Publish(act)) else []
  }

  function Work(c: Config, req: Request, r: Route): Code
    requires Mutates(r)
  {
    match r
    case Activation(id) => Region(StoreLock, Commit(Activate(id)))
    case Connection => IssuerRun(Requested)
    case Approval(id) => IssuerRun(Decided(id))
    case Denial(id) => IssuerRun(Decided(id))
    case QuarantineParty => Contain(Quarantine(c.party(req.body)), c.hasFeed)
    case ClearParty => Contain(Clear(c.party(req.body)), false)
    case RevokeConnection(cid) => Region(StoreLock, Look(StoreLock)) + Contain(Revoke(cid), c.hasFeed)
  }

  function Handler(c: Config, req: Request, r: Route): Code
    requires Mutates(r)
  {
    [Do(Check)] + Work(c, req, r)
  }

  /** Look up first; run the handler with no cache lock held; remember a success. */
  function Idempotent(handler: Code, statuses: set<nat>): Code {
    [Do(Stamp)] + Region(CacheLock, Lookup) + handler + [Do(Reply(statuses))] + Region(CacheLock, Remember)
  }

  function Statuses(r: Route): set<nat> {
    match r
    case Connection => {201, 202}
    case Approval(_) => {201}
    case QuarantineParty | ClearParty | RevokeConnection(_) => {202}
    case AckSet(_) => {204}
    case _ => {200}
  }

  /** Scraping reads the feed and the evidence head with the store lock still held. */
  function Scrape(hasFeed: bool): Code {
    [Do(Look(StoreLock))]
    + (if hasFeed then Region(FeedLock, Look(FeedLock)) else [])
    + Region(EvidenceLock, Look(EvidenceLock))
  }

  function MetricsCode(hasFeed: bool): Code {
    Under(StoreLock, Scrape(hasFeed)) + Region(AckLock, Look(AckLock)) + [Do(Reply({200}))]
  }

  function PortalCode(cidAsked: bool): Code {
    Under(StoreLock,
          [Do(Look(StoreLock))] + if cidAsked then Region(EvidenceLock, Look(EvidenceLock)) else [])
    + [Do(Reply({200}))]
  }

  function RefreshCode(): Code {
    Region(StoreLock, Refresh)
  }

  /** The program of a route that the caller may use. */
  function RouteCode(c: Config, req: Request, r: Route): Code
    requires RoleFor(r).Some?
  {
    if Mutates(r) then Idempotent(Handler(c, req, r), Statuses(r))
    else
      match r
      case PortalPage => PortalCode(req.cidAsked)
      case AckSet(_) => [Do(Check)] + Region(AckLock, Acknowledge) + [Do(Reply({204}))]
      case MediatorStatus => Region(StoreLock, Look(StoreLock)) + Region(AckLock, Look(AckLock)) + [Do(Reply({200}))]
      case Revocations => Region(FeedLock, Look(FeedLock)) + [Do(Reply({200}))]
      case AuditHead => Region(EvidenceLock, Look(EvidenceLock)) + [Do(Reply({200}))]
      case _ => Region(StoreLock, Look(StoreLock)) + [Do(Reply({200}))]
  }

  function Ended(req: Request, a: Answer): Thread {
    Thread(req, [], [], 0, 0, a)
  }

  function Started(req: Request, code: Code): Thread {
    Thread(req, [], code, 0, 0, Waiting)
  }

  /** An authenticated request meets the read-only refusal, then its route's role, then its handler. */
  function Enter(c: Config, req: Request, roles: set<Role>): Thread {
    var r := RouteOf(req.verb, req.path);
    if c.readOnly && req.verb in {POST, PUT, DELETE, PATCH} && !IsAckPath(req.path) then Ended(req, Refused(409))
    else if r.BadMethod? then Ended(req, Refused(405))
    else if r.NoRoute? then Ended(req, Refused(404))
    else if RoleFor(r).value !in roles then Ended(req, Refused(403))
    else if r.PortalPage? && !c.portal then Ended(req, Refused(404))
    else if r.Revocations? && !c.hasFeed then Ended(req, Refused(500))
    else if Mutates(r) && req.key.None? then Ended(req, Refused(400))
    else Started(req, RouteCode(c, req, r))
  }

  /** A request as it arrives. Four paths are answered before authentication. */
  ghost function Dispatch(c: Config, req: Request): Thread
    requires Configured(c)
  {
    if req.verb.GET? && req.path == ["healthz"] then Ended(req, Served(200, ""))
    else if req.verb.GET? && req.path == ["readyz"] then Started(req, [Do(Check), Do(Reply({200}))])
    else if req.verb.GET? && req.path == ["metrics"] then Started(req, MetricsCode(c.hasFeed))
    else if req.verb.GET? && req.path == ["v1", "jwks.json"] then Ended(req, Served(200, ""))
    else
      match Authenticate(c, req)
      case None => Ended(req, Refused(401))
      case Some(roles) => Enter(c, req, roles)
  }

  // ---------------------------------------------------------------------------
  // Steps
  // ---------------------------------------------------------------------------

  /** How an operation turns out. `landed` says a failed append reached its log all the same. */
  datatype Outcome =
    | Pass(status: nat, body: string, commits: nat, rows: nat)
    | Fail(status: nat, landed: bool, commits: nat, rows: nat)

  datatype Label =
    | Arrive(req: Request)
    | RefreshPass
    | SetClock(t: nat)
    | Step(i: nat, o: Outcome)

  /** Drop the guards, innermost first. */
  function Unwind(held: seq<Lock>): Code {
    if held == [] then [] else [Release(held[|held| - 1])] + Unwind(held[..|held| - 1])
  }

  /** The records `retain` keeps. */
  function Live(cache: map<string, Remembered>, now: nat): map<string, Remembered> {
    map k | k in cache && now < cache[k].expiry :: cache[k]
  }

  function Copies(e: Entry, n: nat): (r: seq<Entry>)
    ensures |r| == n && forall i :: 0 <= i < n ==> r[i] == e
  {
    seq(n, _ => e)
  }

  predicate Lands(o: Outcome) {
    o.Pass? || o.landed
  }

  /** The ledger never moves a mediator back to an older set. */
  function Acked(acks: map<string, Ack>, mediator: string, ack: Ack): map<string, Ack> {
    if mediator in acks && acks[mediator].seqNo > ack.seqNo then acks else acks[mediator := ack]
  }

  /** What thread `i`, which is `t`, does to the shared data by performing `op`. */
  function Effect(c: Config, d: Data, i: nat, t: Thread, op: Op, o: Outcome): Data {
    match op
    case Lookup => d.(cache := Live(d.cache, t.stamp))
    case Commit(a) => if Lands(o) then d.(store := d.store + [Entry(a, By(i))]) else d
    case Issue(a) =>
      d.(store := d.store + Copies(Entry(a, By(i)), o.commits),
         evidence := d.evidence + Copies(Entry(a, By(i)), o.rows))
    case Record(a) => if Lands(o) then d.(evidence := d.evidence + [Entry(a, By(i))]) else d
    case Publish(a) => if Lands(o) then d.(feed := d.feed + [Entry(a, By(i))]) else d
    case Acknowledge =>
      if |t.req.path| == 4 then d.(acks := Acked(d.acks, t.req.path[2], t.req.ack)) else d
    case Remember =>
      if t.req.key.Some? && t.answer.Served? then
        d.(cache := d.cache[t.req.key.value :=
             Remembered(t.stamp + IDEMPOTENCY_TTL_SECS, c.sha(t.req.body), t.answer.body)])
      else d
    case Refresh => if o.Pass? then d.(view := o.status) else d
    case _ => d
  }

  function Stop(t: Thread, a: Answer): Thread {
    t.(code := Unwind(t.held), answer := a)
  }

  /** Where performing `op` leaves the thread itself. */
  function Turn(c: Config, d: Data, clock: nat, t: Thread, op: Op, o: Outcome): Thread
    requires t.code != []
  {
    var next := t.(code := t.code[1..]);
    match op
    case Stamp => next.(stamp := clock)
    case Lookup =>
      var live := Live(d.cache, t.stamp);
      if t.req.key.Some? && t.req.key.value in live then
        var seen := live[t.req.key.value];
        Stop(t, if seen.hash == c.sha(t.req.body) then Replayed(200, seen.body) else Refused(409))
      else next.(begun := clock)
    case Reply(_) => next.(answer := Served(o.status, if o.Pass? then o.body else ""))
    case Remember => next
    case _ => if o.Fail? then Stop(t, Refused(o.status)) else next
  }

  /** Outcomes an operation can have: these five always go through. */
  predicate Fits(op: Op, o: Outcome) {
    match op
    case Stamp | Lookup | Remember | Acknowledge => o.Pass?
    case Reply(statuses) => o.Pass? && o.status in statuses
    case _ => true
  }

  predicate CanStep(s: State, i: nat) {
    && i < |s.threads|
    && s.threads[i].code != []
    && (s.threads[i].code[0].Acquire? ==> s.threads[i].code[0].l !in s.owner)
    && (s.threads[i].code[0].Release? ==> s.threads[i].held != [])
  }

  predicate Enabled(s: State, lab: Label) {
    lab.Step? ==>
      && CanStep(s, lab.i)
      && (s.threads[lab.i].code[0].Do? ==> Fits(s.threads[lab.i].code[0].op, lab.o))
  }

  function ThreadStep(c: Config, s: State, i: nat, o: Outcome): State
    requires CanStep(s, i)
  {
    var t := s.threads[i];
    match t.code[0]
    case Acquire(l) =>
      s.(owner := s.owner[l := i], threads := s.threads[i := t.(held := t.held + [l], code := t.code[1..])])
    case Release(l) =>
      s.(owner := s.owner - {l},
         threads := s.threads[i := t.(held := t.held[..|t.held| - 1], code := t.code[1..])])
    case Do(op) =>
      s.(data := Effect(c, s.data, i, t, op, o),
         threads := s.threads[i := Turn(c, s.data, s.clock, t, op, o)])
  }

  ghost function Apply(c: Config, s: State, lab: Label): State
    requires Configured(c) && Enabled(s, lab)
  {
    match lab
    case Arrive(req) => s.(threads := s.threads + [Dispatch(c, req)])
    case RefreshPass => s.(threads := s.threads + [Started(IDLE, RefreshCode())])
    case SetClock(t) => s.(clock := t)
    case Step(i, o) => ThreadStep(c, s, i, o)
  }

  // ---------------------------------------------------------------------------
  // Runs
  // ---------------------------------------------------------------------------

  ghost predicate IsRun(c: Config, s: State, run: seq<Label>)
    requires Configured(c)
    decreases |run|, 0
  {
    run != [] ==> IsRun(c, s, run[..|run| - 1]) && Enabled(After(c, s, run[..|run| - 1]), run[|run| - 1])
  }

  ghost function After(c: Config, s: State, run: seq<Label>): State
    requires Configured(c) && IsRun(c, s, run)
    decreases |run|, 1
  {
    if run == [] then s else Apply(c, After(c, s, run[..|run| - 1]), run[|run| - 1])
  }

  /** A plane about to serve: nothing in flight, nothing cached, logs left by whoever came before. */
  ghost predicate Initial(s: State) {
    && s.threads == [] && s.owner == map[] && s.data.cache == map[]
    && (forall e <- s.data.store :: e.maker.Prior?)
    && (forall e <- s.data.evidence :: e.maker.Prior?)
    && (forall e <- s.data.feed :: e.maker.Prior?)
  }
}
