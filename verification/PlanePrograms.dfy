/** The order of operations inside every handler, and what each program contains. */
module PlanePrograms {
  import opened Plane
  import opened Wrappers

  /** Where an operation stands in the order every program keeps; zero where the order is not at stake. */
  function Phase(ins: Instr): nat {
    if !ins.Do? then 0
    else
      match ins.op
      case Stamp => 1
      case Lookup => 2
      case Commit(_) => 3
      case Issue(_) => 3
      case Record(_) => 4
      case Publish(_) => 5
      case Reply(_) => 6
      case Remember => 7
      case _ => 0
  }

  /** The phases of `code` rise strictly, all of them above `lo`. */
  predicate Phased(lo: nat, code: Code)
    decreases |code|
  {
    code == [] ||
    if Phase(code[0]) == 0 then Phased(lo, code[1..])
    else lo < Phase(code[0]) && Phased(Phase(code[0]), code[1..])
  }

  lemma {:induction false} PhasesAbove(lo: nat, code: Code, ins: Instr)
    requires Phased(lo, code) && ins in code
    ensures Phase(ins) == 0 || lo < Phase(ins)
    decreases |code|
  {
    if ins != code[0] {
      assert ins in code[1..];
      PhasesAbove(if Phase(code[0]) == 0 then lo else Phase(code[0]), code[1..], ins);
    }
  }

  /** Raising the floor of a program whose phases all clear it. */
  lemma {:induction false} PhasedThen(lo: nat, a: Code, mid: nat, b: Code)
    requires Phased(lo, a) && lo <= mid && (forall ins <- a :: Phase(ins) <= mid) && Phased(mid, b)
    ensures Phased(lo, a + b)
    decreases |a|
  {
    if a == [] {
      assert a + b == b;
      LowerFloor(lo, mid, b);
    } else {
      assert (a + b)[0] == a[0] && (a + b)[1..] == a[1..] + b;
      assert a[0] in a;
      PhasedThen(if Phase(a[0]) == 0 then lo else Phase(a[0]), a[1..], mid, b);
    }
  }

  lemma {:induction false} LowerFloor(lo: nat, hi: nat, code: Code)
    requires lo <= hi && Phased(hi, code)
    ensures Phased(lo, code)
    decreases |code|
  {
    if code != [] && Phase(code[0]) == 0 {
      LowerFloor(lo, hi, code[1..]);
    }
  }

  lemma {:induction false} Unphased(lo: nat, code: Code)
    requires forall ins <- code :: Phase(ins) == 0
    ensures Phased(lo, code)
    decreases |code|
  {
    if code != [] {
      assert code[0] in code;
      Unphased(lo, code[1..]);
    }
  }

  lemma {:induction false} UnwindReleases(held: seq<Lock>)
    ensures forall ins <- Unwind(held) :: ins.Release?
    decreases |held|
  {
    if held != [] { UnwindReleases(held[..|held| - 1]); }
  }

  lemma OnePhase(lo: nat, op: Op)
    requires lo < Phase(Do(op))
    ensures Phased(lo, [Do(op)])
  {
    assert [Do(op)][1..] == [];
  }

  lemma RegionPhased(lo: nat, l: Lock, op: Op)
    requires lo < Phase(Do(op))
    ensures Phased(lo, Region(l, op))
  {
    var p := Phase(Do(op));
    Unphased(lo, [Acquire(l)]);
    OnePhase(lo, op);
    Unphased(p, [Release(l)]);
    PhasedThen(lo, [Acquire(l)], lo, [Do(op)]);
    PhasedThen(lo, [Acquire(l)] + [Do(op)], p, [Release(l)]);
  }

  lemma ContainPhased(act: Act, hasFeed: bool)
    ensures Phased(2, Contain(act, hasFeed))
  {
    var a, b := Region(StoreLock, Commit(act)), Region(EvidenceLock, Record(act));
    var f := if hasFeed then Region(FeedLock, Publish(act)) else [];
    RegionPhased(2, StoreLock, Commit(act));
    RegionPhased(3, EvidenceLock, Record(act));
    RegionPhased(4, FeedLock, Publish(act));
    PhasedThen(2, a, 3, b);
    PhasedThen(2, a + b, 4, f);
  }

  lemma IssuerPhased(act: Act)
    ensures Phased(2, IssuerRun(act))
  {
    RegionPhased(2, EvidenceLock, Issue(act));
    var a, b := [Acquire(StoreLock)], Region(EvidenceLock, Issue(act));
    Unphased(2, a);
    Unphased(3, [Release(StoreLock)]);
    PhasedThen(2, a, 2, b);
    PhasedThen(2, a + b, 3, [Release(StoreLock)]);
  }

  lemma WorkPhased(c: Config, req: Request, r: Route)
    requires Mutates(r)
    ensures Phased(2, Work(c, req, r))
  {
    match r {
      case Activation(id) => RegionPhased(2, StoreLock, Commit(Activate(id)));
      case Connection => IssuerPhased(Requested);
      case Approval(id) => IssuerPhased(Decided(id));
      case Denial(id) => IssuerPhased(Decided(id));
      case QuarantineParty => ContainPhased(Quarantine(c.party(req.body)), c.hasFeed);
      case ClearParty => ContainPhased(Clear(c.party(req.body)), false);
      case RevokeConnection(cid) =>
        var look := Region(StoreLock, Look(StoreLock));
        ContainPhased(Revoke(cid), c.hasFeed);
        Unphased(2, look);
        PhasedThen(2, look, 2, Contain(Revoke(cid), c.hasFeed));
    }
  }

  /** The operations a handler performs between its lookup and its reply, all on one act. */
  lemma WorkOps(c: Config, req: Request, r: Route, ins: Instr)
    requires Mutates(r) && ins in Work(c, req, r)
    ensures Phase(ins) <= 5
    ensures ins.Do? ==>
              || ins.op == Look(StoreLock)
              || ((ins.op.Commit? || ins.op.Record? || ins.op.Publish?) && Target(c, req, r) == Some(ins.op.act))
              || (&& ins.op.Issue? && Target(c, req, r).None?
                  && (if r.Connection? then ins.op.act == Requested else ins.op.act.Decided?))
    ensures ins.Do? && ins.op.Publish? ==> c.hasFeed && !r.ClearParty?
  {
  }

  /** The one act a route appends, outside the issuer. */
  function Target(c: Config, req: Request, r: Route): Option<Act> {
    match r
    case Activation(id) => Some(Activate(id))
    case QuarantineParty => Some(Quarantine(c.party(req.body)))
    case ClearParty => Some(Clear(c.party(req.body)))
    case RevokeConnection(cid) => Some(Revoke(cid))
    case _ => None
  }

  /** A mutating handler between its lookup and its reply. */
  lemma HandlerPhased(c: Config, req: Request, r: Route)
    requires Mutates(r)
    ensures Phased(2, Handler(c, req, r))
    ensures forall ins <- Handler(c, req, r) :: Phase(ins) <= 5
  {
    Unphased(2, [Do(Check)]);
    WorkPhased(c, req, r);
    PhasedThen(2, [Do(Check)], 2, Work(c, req, r));
    forall ins <- Handler(c, req, r) ensures Phase(ins) <= 5 {
      if ins != Do(Check) {
        assert ins in Work(c, req, r);
        WorkOps(c, req, r, ins);
      }
    }
  }

  lemma IdempotentPhased(handler: Code, statuses: set<nat>)
    requires Phased(2, handler) && forall ins <- handler :: Phase(ins) <= 5
    ensures Phased(0, Idempotent(handler, statuses))
  {
    var a, b, d := [Do(Stamp)], Region(CacheLock, Lookup), [Do(Reply(statuses))];
    OnePhase(0, Stamp);
    RegionPhased(1, CacheLock, Lookup);
    OnePhase(5, Reply(statuses));
    RegionPhased(6, CacheLock, Remember);
    PhasedThen(0, a, 1, b);
    PhasedThen(0, a + b, 2, handler);
    PhasedThen(0, a + b + handler, 5, d);
    PhasedThen(0, a + b + handler + d, 6, Region(CacheLock, Remember));
  }

  /** Everything a read or an acknowledgement does is outside the order, except its reply. */
  lemma ReplyLast(code: Code, statuses: set<nat>)
    requires forall ins <- code :: Phase(ins) == 0
    ensures Phased(0, code + [Do(Reply(statuses))])
  {
    Unphased(0, code);
    OnePhase(0, Reply(statuses));
    PhasedThen(0, code, 0, [Do(Reply(statuses))]);
  }

  lemma RouteCodePhased(c: Config, req: Request, r: Route)
    requires RoleFor(r).Some?
    ensures Phased(0, RouteCode(c, req, r))
  {
    if Mutates(r) {
      HandlerPhased(c, req, r);
      IdempotentPhased(Handler(c, req, r), Statuses(r));
    } else if r.PortalPage? {
      ReplyLast(Under(StoreLock, [Do(Look(StoreLock))]
                + if req.cidAsked then Region(EvidenceLock, Look(EvidenceLock)) else []), {200});
    } else if r.AckSet? {
      ReplyLast([Do(Check)] + Region(AckLock, Acknowledge), {204});
    } else if r.MediatorStatus? {
      ReplyLast(Region(StoreLock, Look(StoreLock)) + Region(AckLock, Look(AckLock)), {200});
    } else {
      ReplyLast(Region(StoreLock, Look(StoreLock)), {200});
      ReplyLast(Region(FeedLock, Look(FeedLock)), {200});
      ReplyLast(Region(EvidenceLock, Look(EvidenceLock)), {200});
    }
  }

  /** What an authenticated caller meets: a refusal, or the program of a route it may use. */
  lemma EnterCases(c: Config, req: Request, roles: set<Role>)
    ensures var t := Enter(c, req, roles);
            var r := RouteOf(req.verb, req.path);
            || (t.answer.Refused? && t == Ended(req, t.answer))
            || (&& RoleFor(r).Some? && RoleFor(r).value in roles
                && t == Started(req, RouteCode(c, req, r))
                && (Mutates(r) ==> req.key.Some? && !c.readOnly && req.verb.POST?)
                && (r.Revocations? ==> c.hasFeed))
  {
  }

  /** What arrives is refused, answered, one of the two open pages, or the program of a route the caller may use. */
  lemma DispatchCases(c: Config, req: Request)
    requires Configured(c)
    ensures var t := Dispatch(c, req);
            var r := RouteOf(req.verb, req.path);
            || (t == Ended(req, t.answer) && (t.answer.Refused? || (t.answer == Served(200, "") && !Mutates(r))))
            || (t == Started(req, [Do(Check), Do(Reply({200}))]) && !Mutates(r))
            || (t == Started(req, MetricsCode(c.hasFeed)) && !Mutates(r))
            || (&& RoleFor(r).Some? && Holds(c, req, RoleFor(r).value)
                && t == Started(req, RouteCode(c, req, r))
                && (Mutates(r) ==> req.key.Some? && !c.readOnly))
  {
    var a := Authenticate(c, req);
    if a.Some? { EnterCases(c, req, a.value); }
  }

  lemma DispatchPhased(c: Config, req: Request)
    requires Configured(c)
    ensures Phased(0, Dispatch(c, req).code)
  {
    DispatchCases(c, req);
    var t := Dispatch(c, req);
    var r := RouteOf(req.verb, req.path);
    if t.code == [Do(Check), Do(Reply({200}))] {
      ReplyLast([Do(Check)], {200});
      assert t.code == [Do(Check)] + [Do(Reply({200}))];
    } else if t.code == MetricsCode(c.hasFeed) {
      ReplyLast(Under(StoreLock, Scrape(c.hasFeed)) + Region(AckLock, Look(AckLock)), {200});
    } else if t.code != [] {
      RouteCodePhased(c, req, r);
    }
  }
}
