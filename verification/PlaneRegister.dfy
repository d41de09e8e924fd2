/** The register's own guards, and which requests they let be applied twice. */
module PlaneRegister {
  import opened Plane
  import opened PlaneGuards
  import opened PlanePrograms
  import opened PlaneContainment
  import opened PlaneSolo
  import opened PlaneRetries
  import opened PlaneCopies

  datatype Life = Pending | Active | Suspended | Retired

  datatype Party = Party(life: Life, quarantined: bool)

  /** The register before the run; `policy` and `fit` decide what it does not: rules, proofs, dual control, lapses. */
  datatype Register = Register(
    parties: map<string, Party>,
    contracts: set<string>,
    policy: (nat, Request, nat, nat) -> bool,   // with so many requests already made, making so many entries, now
    fit: (Request, nat) -> bool)

  /** What an act does to a party. */
  function Moved(p: Party, id: string, a: Act): Party {
    match a
    case Activate(x) => if x == id then p.(life := Active) else p
    case Quarantine(x) => if x == id then Party(Suspended, true) else p
    case Clear(x) => if x == id then Party(Pending, false) else p
    case _ => p
  }

  /** A party once the acts of the run have been applied to it in order. */
  function PartyAfter(p: Party, id: string, acts: seq<Act>): Party {
    if acts == [] then p else Moved(PartyAfter(p, id, acts[..|acts| - 1]), id, acts[|acts| - 1])
  }

  function RequestsIn(acts: seq<Act>): nat {
    if acts == [] then 0 else RequestsIn(acts[..|acts| - 1]) + if acts[|acts| - 1].Requested? then 1 else 0
  }

  /** Whether the register takes the request: lifecycle table, quarantine guard, what is known and what is settled. */
  predicate Takes(reg: Register, c: Config, acts: seq<Act>, req: Request, n: nat, clock: nat) {
    var r := RouteOf(req.verb, req.path);
    && Mutates(r) && Possible(req, n) && reg.fit(req, clock)
    && match r
       case Activation(id) =>
         && id in reg.parties
         && var p := PartyAfter(reg.parties[id], id, acts); !p.quarantined && (p.life.Pending? || p.life.Suspended?)
       case QuarantineParty => c.party(req.body) in reg.parties
       case ClearParty =>
         var id := c.party(req.body);
         id in reg.parties && PartyAfter(reg.parties[id], id, acts).quarantined
       case RevokeConnection(cid) => cid in reg.contracts
       case Approval(id) => Decided(id) !in acts
       case Denial(id) => Decided(id) !in acts
       case Connection => reg.policy(RequestsIn(acts), req, n, clock)
       case _ => false
  }

  /** Guards whose register is this one. */
  ghost predicate Keeps(g: Guards, reg: Register, c: Config) {
    forall acts, req, n, clock :: g.permits(acts, req, n, clock) <==> Takes(reg, c, acts, req, n, clock)
  }

  // ---------------------------------------------------------------------------
  // After itself
  // ---------------------------------------------------------------------------

  /** Routes whose act, once done, the register refuses to do again. */
  predicate SettlesItself(r: Route) {
    r.Activation? || r.ClearParty? || r.Approval? || r.Denial?
  }

  /** Routes that the register never looks back for. */
  predicate NeverLooksBack(r: Route) {
    r.QuarantineParty? || r.RevokeConnection?
  }

  /** The policy admits the connection at some time, and admits another like it on top at some time. */
  ghost predicate PolicyAdmitsAgain(reg: Register, req: Request, start: nat, rising: bool) {
    exists m: nat, n: nat, t: nat, u: nat ::
      && Readings(rising, start, t, u) && m > 0 && n > 0
      && reg.fit(req, t) && reg.policy(0, req, m, t) && reg.fit(req, u) && reg.policy(m, req, n, u)
  }

  /** The register takes the order at some time. */
  ghost predicate TakesIt(reg: Register, c: Config, req: Request, start: nat, rising: bool) {
    exists t: nat :: Readings(rising, start, t, t) && Takes(reg, c, [], req, 1, t)
  }

  lemma OneAct(p: Party, id: string, a: Act)
    ensures Times(a, 1) == [a] && PartyAfter(p, id, [a]) == Moved(p, id, a)
  {
    assert [a][..0] == [];
  }

  lemma {:induction false} CountsRequests(m: nat)
    ensures RequestsIn(Times(Requested, m)) == m
    decreases m
  {
    if m > 0 {
      assert Times(Requested, m)[..m - 1] == Times(Requested, m - 1);
      CountsRequests(m - 1);
    }
  }

  /** Once an activation, a clearing or a decision is there, the register does not take it again. */
  lemma SettledIsRefused(reg: Register, c: Config, req: Request, m: nat, n: nat, clock: nat)
    requires Mutating(req) && SettlesItself(RouteOf(req.verb, req.path)) && Possible(req, m)
    ensures !Takes(reg, c, Times(ActOf(c, req), m), req, n, clock)
  {
    var r, a := RouteOf(req.verb, req.path), ActOf(c, req);
    if r.Approval? || r.Denial? {
      assert Times(a, m)[0] == a && a in Times(a, m);
    } else {
      var id := if r.Activation? then r.id else c.party(req.body);
      if id in reg.parties { OneAct(reg.parties[id], id, a); }
    }
  }

  /** What the register never looks back for, it takes again exactly as it took it. */
  lemma TakenAgain(reg: Register, c: Config, req: Request, clock: nat)
    requires Mutating(req) && NeverLooksBack(RouteOf(req.verb, req.path))
    ensures Takes(reg, c, Times(ActOf(c, req), 1), req, 1, clock) == Takes(reg, c, [], req, 1, clock)
  {
  }

  /** A quarantine or a revocation that is taken, or a connection that policy admits again. */
  ghost predicate TakenTwice(reg: Register, c: Config, req: Request, start: nat, rising: bool) {
    var r := RouteOf(req.verb, req.path);
    || (NeverLooksBack(r) && TakesIt(reg, c, req, start, rising))
    || (r.Connection? && PolicyAdmitsAgain(reg, req, start, rising))
  }

  lemma RepeatableIsTakenTwice(c: Config, g: Guards, reg: Register, req: Request, start: nat, rising: bool)
    requires Mutating(req) && Keeps(g, reg, c) && Repeatable(c, g, req, start, rising)
    ensures TakenTwice(reg, c, req, start, rising)
  {
    var r, a := RouteOf(req.verb, req.path), ActOf(c, req);
    var m: nat, n: nat, t: nat, u: nat :|
      && Readings(rising, start, t, u)
      && Possible(req, m) && g.permits([], req, m, t)
      && Possible(req, n) && g.permits(Times(a, m), req, n, u);
    assert Takes(reg, c, [], req, m, t) && Takes(reg, c, Times(a, m), req, n, u);
    if r.Connection? {
      CountsRequests(m);
    } else if SettlesItself(r) {
      SettledIsRefused(reg, c, req, m, n, u);
    } else {
      assert Readings(rising, start, t, t);
    }
  }

  lemma TakenTwiceIsRepeatable(c: Config, g: Guards, reg: Register, req: Request, start: nat, rising: bool)
    requires Mutating(req) && Keeps(g, reg, c) && TakenTwice(reg, c, req, start, rising)
    ensures Repeatable(c, g, req, start, rising)
  {
    var r, a := RouteOf(req.verb, req.path), ActOf(c, req);
    if r.Connection? {
      var m: nat, n: nat, t: nat, u: nat :|
        && Readings(rising, start, t, u) && m > 0 && n > 0
        && reg.fit(req, t) && reg.policy(0, req, m, t) && reg.fit(req, u) && reg.policy(m, req, n, u);
      CountsRequests(m);
      assert g.permits([], req, m, t) && g.permits(Times(a, m), req, n, u);
    } else {
      var t: nat :| Readings(rising, start, t, t) && Takes(reg, c, [], req, 1, t);
      TakenAgain(reg, c, req, t);
      assert g.permits([], req, 1, t) && g.permits(Times(a, 1), req, 1, t);
    }
  }

  /**
   * Route by route, whether the clock may go back or not: copies of a request alone can put it on the register twice
   * if and only if it orders a quarantine or a revocation that the register takes at some time, or asks for a
   * connection that policy admits at some time and, after itself, at some time again.
   */
  lemma AppliedTwiceExactlyOn(c: Config, s: State, req: Request, status: nat, body: string, g: Guards, reg: Register,
                              rising: bool)
    requires Configured(c) && Initial(s) && LetIn(c, req) && g.accepts(req) && Keeps(g, reg, c)
    requires status in Statuses(RouteOf(req.verb, req.path)) && g.replies(req, status, body)
    ensures (exists run :: DoublyApplied(c, s, run, req, g, rising)) <==> TakenTwice(reg, c, req, s.clock, rising)
  {
    AppliedTwiceExactlyWhen(c, s, req, status, body, g, rising);
    if Repeatable(c, g, req, s.clock, rising) { RepeatableIsTakenTwice(c, g, reg, req, s.clock, rising); }
    if TakenTwice(reg, c, req, s.clock, rising) { TakenTwiceIsRepeatable(c, g, reg, req, s.clock, rising); }
  }

  /** However they overlap and whatever the clock does, copies of an activation, a clearing or a decision apply once. */
  lemma SettledAtMostOnce(c: Config, s: State, run: seq<Label>, req: Request, g: Guards, reg: Register)
    requires Configured(c) && Initial(s) && IsRun(c, s, run) && Obeys(c, s, run, g) && OnlyCopies(run, req)
    requires Mutating(req) && SettlesItself(RouteOf(req.verb, req.path)) && Keeps(g, reg, c)
    ensures !Twice(c, After(c, s, run), req)
  {
    CopiesAlways(c, s, run, req, g, false);
    if Twice(c, After(c, s, run), req) {
      TwiceNeedsRepeatable(c, s, After(c, s, run), req, g, false);
      RepeatableIsTakenTwice(c, g, reg, req, s.clock, false);
    }
  }

  // ---------------------------------------------------------------------------
  // A party's standing, from the last act about it
  // ---------------------------------------------------------------------------

  predicate About(a: Act, id: string) {
    a == Activate(id) || a == Quarantine(id) || a == Clear(id)
  }

  /** `k` is the last act about the party. */
  predicate LastAbout(acts: seq<Act>, id: string, k: nat) {
    k < |acts| && About(acts[k], id) && forall j :: k < j < |acts| ==> !About(acts[j], id)
  }

  lemma {:induction false} NothingAbout(p: Party, id: string, acts: seq<Act>)
    requires forall a <- acts :: !About(a, id)
    ensures PartyAfter(p, id, acts) == p
    decreases |acts|
  {
    if acts != [] {
      assert acts[|acts| - 1] in acts;
      NothingAbout(p, id, acts[..|acts| - 1]);
    }
  }

  lemma {:induction false} StandsAsLast(p: Party, id: string, acts: seq<Act>, k: nat)
    requires LastAbout(acts, id, k)
    ensures PartyAfter(p, id, acts) == Moved(PartyAfter(p, id, acts[..k]), id, acts[k])
    decreases |acts|
  {
    var front := acts[..|acts| - 1];
    if k < |front| {
      StandsAsLast(p, id, front, k);
      assert front[..k] == acts[..k];
    }
  }

  /**
   * An activation that is fit is taken exactly when the last act of the run about the entity lifted a quarantine, or
   * there was none and the entity was pending or suspended and not quarantined to begin with.
   */
  lemma ActivationTakenExactlyWhen(reg: Register, c: Config, acts: seq<Act>, req: Request, id: string, clock: nat)
    requires req.verb.POST? && req.path == ["v1", "entities", id, "activate"]
    ensures Takes(reg, c, acts, req, 1, clock) <==>
            && reg.fit(req, clock) && id in reg.parties
            && (|| (exists k: nat :: LastAbout(acts, id, k) && acts[k] == Clear(id))
                || (&& (forall a <- acts :: !About(a, id)) && !reg.parties[id].quarantined
                    && (reg.parties[id].life.Pending? || reg.parties[id].life.Suspended?)))
  {
    assert RouteOf(req.verb, req.path) == Activation(id) && Possible(req, 1);
    if id in reg.parties { StandingIs(reg.parties[id], id, acts); }
  }

  /** Quarantined, and not lifted since. */
  ghost predicate StillQuarantined(before: bool, id: string, acts: seq<Act>) {
    || (before && Clear(id) !in acts)
    || (exists k: nat :: k < |acts| && acts[k] == Quarantine(id) && forall j :: k < j < |acts| ==> acts[j] != Clear(id))
  }

  lemma {:induction false} QuarantineLasts(p: Party, id: string, acts: seq<Act>)
    ensures PartyAfter(p, id, acts).quarantined <==> StillQuarantined(p.quarantined, id, acts)
    decreases |acts|
  {
    if acts != [] {
      var front, last := acts[..|acts| - 1], acts[|acts| - 1];
      QuarantineLasts(p, id, front);
      assert acts == front + [last];
      if k: nat :| k < |front| && front[k] == Quarantine(id) && forall j :: k < j < |front| ==> front[j] != Clear(id) {
        assert acts[k] == Quarantine(id);
      }
    }
  }

  /** A lifting that is fit is taken exactly when the party was quarantined, before or since, and not lifted since. */
  lemma ClearingTakenExactlyWhen(reg: Register, c: Config, acts: seq<Act>, req: Request, clock: nat)
    requires req.verb.POST? && req.path == ["v1", "quarantine", "clear"]
    ensures var id := c.party(req.body);
            Takes(reg, c, acts, req, 1, clock) <==>
            && reg.fit(req, clock) && id in reg.parties
            && StillQuarantined(reg.parties[id].quarantined, id, acts)
  {
    assert RouteOf(req.verb, req.path) == ClearParty && Possible(req, 1);
    var id := c.party(req.body);
    if id in reg.parties { QuarantineLasts(reg.parties[id], id, acts); }
  }

  /** An order to quarantine that is fit is taken exactly when the party is known, whatever was done before. */
  lemma QuarantineTakenExactlyWhen(reg: Register, c: Config, acts: seq<Act>, req: Request, clock: nat)
    requires req.verb.POST? && req.path == ["v1", "quarantine"]
    ensures Takes(reg, c, acts, req, 1, clock) <==> reg.fit(req, clock) && c.party(req.body) in reg.parties
  {
    assert RouteOf(req.verb, req.path) == QuarantineParty && Possible(req, 1);
  }

  /** An order to revoke that is fit is taken exactly when the connection is known, whatever was done before. */
  lemma RevocationTakenExactlyWhen(reg: Register, c: Config, acts: seq<Act>, req: Request, cid: string, clock: nat)
    requires req.verb.POST? && req.path == ["v1", "connections", cid, "revoke"]
    ensures Takes(reg, c, acts, req, 1, clock) <==> reg.fit(req, clock) && cid in reg.contracts
  {
    assert RouteOf(req.verb, req.path) == RevokeConnection(cid) && Possible(req, 1);
  }

  /** An approval or a denial that is fit is taken exactly when the request was not decided in the run. */
  lemma DecisionTakenExactlyWhen(reg: Register, c: Config, acts: seq<Act>, req: Request, id: string, n: nat, clock: nat)
    requires req.verb.POST? && n > 0
    requires req.path == ["v1", "requests", id, "approve"] || req.path == ["v1", "requests", id, "deny"]
    ensures Takes(reg, c, acts, req, n, clock) <==> reg.fit(req, clock) && Decided(id) !in acts
  {
    var r := RouteOf(req.verb, req.path);
    assert (r == Approval(id) || r == Denial(id)) && Possible(req, n);
  }

  lemma StandingIs(p: Party, id: string, acts: seq<Act>)
    ensures (forall a <- acts :: !About(a, id)) ==> PartyAfter(p, id, acts) == p
    ensures forall k: nat :: LastAbout(acts, id, k) ==>
              PartyAfter(p, id, acts) == Moved(PartyAfter(p, id, acts[..k]), id, acts[k])
    ensures (forall a <- acts :: !About(a, id)) || exists k: nat :: LastAbout(acts, id, k)
  {
    if forall a <- acts :: !About(a, id) { NothingAbout(p, id, acts); }
    forall k: nat | LastAbout(acts, id, k)
      ensures PartyAfter(p, id, acts) == Moved(PartyAfter(p, id, acts[..k]), id, acts[k])
    {
      StandsAsLast(p, id, acts, k);
    }
    SomeLast(id, acts);
  }

  lemma {:induction false} SomeLast(id: string, acts: seq<Act>)
    ensures (forall a <- acts :: !About(a, id)) || exists k: nat :: LastAbout(acts, id, k)
    decreases |acts|
  {
    if acts != [] && !About(acts[|acts| - 1], id) {
      var front := acts[..|acts| - 1];
      SomeLast(id, front);
      if k: nat :| LastAbout(front, id, k) {
        assert LastAbout(acts, id, k);
      } else {
        assert forall a <- acts :: a in front || a == acts[|acts| - 1];
      }
    } else if acts != [] {
      assert LastAbout(acts, id, |acts| - 1);
    }
  }

  // ---------------------------------------------------------------------------
  // Decisions, among any other traffic
  // ---------------------------------------------------------------------------

  /** Whatever a thread will still append is what its own request is about. */
  predicate OwnWrites(c: Config, t: Thread) {
    forall ins <- t.code :: Appends(ins) ==> Mutating(t.req) && ins == Writing(c, t.req)
  }

  lemma ArrivesWithOwnWrites(c: Config, req: Request)
    requires Configured(c)
    ensures OwnWrites(c, Dispatch(c, req))
  {
    DispatchCases(c, req);
    var t, r := Dispatch(c, req), RouteOf(req.verb, req.path);
    if Mutating(req) {
      ArrivesAsCopy(c, req);
    } else {
      forall ins <- t.code ensures !Appends(ins) {
        if t == Started(req, MetricsCode(c.hasFeed)) {
          MetricsAreQuiet(c.hasFeed, ins);
        } else if t != Started(req, [Do(Check), Do(Reply({200}))]) {
          ReadsAreQuiet(c, req, r, ins);
        }
      }
    }
  }

  lemma KeepsOwnWrites(c: Config, s: State, i: nat, o: Outcome)
    requires CanStep(s, i) && OwnWrites(c, s.threads[i])
    ensures OwnWrites(c, ThreadStep(c, s, i, o).threads[i])
  {
    GoesOnOrUnwinds(c, s, i, o);
    UnwindReleases(s.threads[i].held);
    StepKeepsRequest(c, s, i, o);
  }

  lemma StepKeepsRequest(c: Config, s: State, i: nat, o: Outcome)
    requires CanStep(s, i)
    ensures ThreadStep(c, s, i, o).threads[i].req == s.threads[i].req
  {
  }

  /** The register still begins as it did, and at most one thread of the run is on it for the decision. */
  ghost predicate DecidedOnce(s: State, now: State, id: string) {
    && s.data.store <= now.data.store
    && forall i: nat, j: nat ::
         Entry(Decided(id), By(i)) in now.data.store && Entry(Decided(id), By(j)) in now.data.store ==> i == j
  }

  lemma StepAppends(c: Config, now: State, i: nat, o: Outcome, g: Guards, base: nat)
    requires CanStep(now, i) && OwnWrites(c, now.threads[i]) && Lawful(g, base, now, Step(i, o))
    ensures var n, next := Adds(now, i, o), ThreadStep(c, now, i, o);
            if n == 0 then next.data.store == now.data.store
            else
              var req := now.threads[i].req;
              && Mutating(req) && g.permits(Since(base, now.data), req, n, now.clock)
              && next.data.store == now.data.store + Copies(Entry(ActOf(c, req), By(i)), n)
  {
    var t := now.threads[i];
    assert t.code[0] in t.code;
    if Appends(t.code[0]) {
      assert Copies(Entry(ActOf(c, t.req), By(i)), 1) == [Entry(ActOf(c, t.req), By(i))];
      assert now.data.store + Copies(Entry(ActOf(c, t.req), By(i)), 0) == now.data.store;
    }
  }

  /** An entry of the run is among the acts the register sees. */
  lemma EntryIsSeen(s: State, now: State, e: Entry)
    requires Initial(s) && s.data.store <= now.data.store && e in now.data.store && e.maker.By?
    ensures e.act in Since(|s.data.store|, now.data)
  {
    var base := |s.data.store|;
    assert now.data.store == s.data.store + now.data.store[base..];
    assert e !in s.data.store;
    var k :| 0 <= k < |now.data.store[base..]| && now.data.store[base..][k] == e;
    assert Since(base, now.data)[k] == e.act;
  }

  lemma DecidingStep(c: Config, s: State, now: State, i: nat, o: Outcome, g: Guards, reg: Register, id: string)
    requires Initial(s) && CanStep(now, i) && OwnWrites(c, now.threads[i]) && Keeps(g, reg, c)
    requires Lawful(g, |s.data.store|, now, Step(i, o)) && DecidedOnce(s, now, id)
    ensures DecidedOnce(s, ThreadStep(c, now, i, o), id)
  {
    var n, base := Adds(now, i, o), |s.data.store|;
    StepAppends(c, now, i, o, g, base);
    if n > 0 {
      var req := now.threads[i].req;
      var e := Entry(ActOf(c, req), By(i));
      assert forall x :: x in now.data.store + Copies(e, n) ==> x in now.data.store || x == e;
      assert Takes(reg, c, Since(base, now.data), req, n, now.clock);
      forall j: nat | e.act == Decided(id) ensures Entry(Decided(id), By(j)) !in now.data.store {
        if Entry(Decided(id), By(j)) in now.data.store { EntryIsSeen(s, now, Entry(Decided(id), By(j))); }
      }
    }
  }

  ghost predicate DecidingSoFar(c: Config, s: State, now: State, id: string) {
    DecidedOnce(s, now, id) && forall i :: 0 <= i < |now.threads| ==> OwnWrites(c, now.threads[i])
  }

  lemma DecidingGoesOn(c: Config, s: State, now: State, lab: Label, g: Guards, reg: Register, id: string)
    requires Configured(c) && Initial(s) && Enabled(now, lab) && Keeps(g, reg, c)
    requires Lawful(g, |s.data.store|, now, lab) && DecidingSoFar(c, s, now, id)
    ensures DecidingSoFar(c, s, Apply(c, now, lab), id)
  {
    match lab {
      case Arrive(req) => ArrivesWithOwnWrites(c, req);
      case RefreshPass =>
      case SetClock(_) =>
      case Step(i, o) =>
        DecidingStep(c, s, now, i, o, g, reg, id);
        KeepsOwnWrites(c, now, i, o);
    }
  }

  lemma {:induction false} DecidingAlways(c: Config, s: State, run: seq<Label>, g: Guards, reg: Register, id: string)
    requires Configured(c) && Initial(s) && IsRun(c, s, run) && Obeys(c, s, run, g) && Keeps(g, reg, c)
    ensures DecidingSoFar(c, s, After(c, s, run), id)
    decreases |run|
  {
    if run != [] {
      var front := run[..|run| - 1];
      DecidingAlways(c, s, front, g, reg, id);
      DecidingGoesOn(c, s, After(c, s, front), run[|run| - 1], g, reg, id);
    }
  }

  /**
   * Among any other traffic, keys and clock readings, a pending request is decided by at most one thread of the run,
   * also when two approvers race an approval and a denial.
   */
  lemma DecidedAtMostOnce(c: Config, s: State, run: seq<Label>, g: Guards, reg: Register, id: string, i: nat, j: nat)
    requires Configured(c) && Initial(s) && IsRun(c, s, run) && Obeys(c, s, run, g) && Keeps(g, reg, c)
    requires Entry(Decided(id), By(i)) in After(c, s, run).data.store
    requires Entry(Decided(id), By(j)) in After(c, s, run).data.store
    ensures i == j
  {
    DecidingAlways(c, s, run, g, reg, id);
  }
}
