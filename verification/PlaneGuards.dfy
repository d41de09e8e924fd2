/**
 * What decides how a handler's operations turn out: the body it is given, the register as it stands, and what it
 * answers. The functions are arbitrary. Runs are not restricted by them, so what holds of every run holds whatever
 * decides; a run that is said to be possible must obey them.
 */
module PlaneGuards {
  import opened Plane

  datatype Guards = Guards(
    accepts: Request -> bool,                        // the handler can read the body
    permits: (seq<Act>, Request, nat, nat) -> bool,  // with these acts added since the start, appending so many, now
    replies: (Request, nat, string) -> bool)         // the request may be answered so

  function Acts(log: seq<Entry>): seq<Act> {
    seq(|log|, i requires 0 <= i < |log| => log[i].act)
  }

  /** What the run has added to the register. */
  function Since(base: nat, d: Data): seq<Act> {
    if base <= |d.store| then Acts(d.store[base..]) else []
  }

  /** How `op` may turn out for `req`, at this state of the register and this time. */
  predicate Heeds(g: Guards, acts: seq<Act>, clock: nat, req: Request, op: Op, o: Outcome) {
    match op
    case Check => o.Pass? ==> g.accepts(req)
    case Look(l) => o.Pass? && l.StoreLock? && Mutating(req) ==> g.permits(acts, req, 1, clock)
    case Commit(_) => Lands(o) ==> g.permits(acts, req, 1, clock)
    case Issue(_) => o.commits > 0 ==> g.permits(acts, req, o.commits, clock)
    case Reply(_) => o.Pass? && Mutating(req) ==> g.replies(req, o.status, o.body)
    case _ => true
  }

  predicate Lawful(g: Guards, base: nat, s: State, lab: Label) {
    lab.Step? && lab.i < |s.threads| && s.threads[lab.i].code != [] && s.threads[lab.i].code[0].Do? ==>
      Heeds(g, Since(base, s.data), s.clock, s.threads[lab.i].req, s.threads[lab.i].code[0].op, lab.o)
  }

  /** Every step of the run turned out as the guards allow. */
  ghost predicate Obeys(c: Config, s: State, run: seq<Label>, g: Guards)
    requires Configured(c) && IsRun(c, s, run)
    decreases |run|
  {
    run != [] ==>
      && Obeys(c, s, run[..|run| - 1], g)
      && Lawful(g, |s.data.store|, After(c, s, run[..|run| - 1]), run[|run| - 1])
  }

  /** `act`, so many times. */
  function Times(act: Act, n: nat): seq<Act> {
    seq(n, _ => act)
  }

  lemma NothingSince(s: State)
    ensures Since(|s.data.store|, s.data) == []
  {
    assert s.data.store[|s.data.store|..] == [];
  }

  lemma SinceGrows(base: nat, d: Data, d': Data, e: Entry, n: nat)
    requires base <= |d.store| && d'.store == d.store + Copies(e, n)
    ensures Since(base, d') == Since(base, d) + Times(e.act, n)
  {
    assert d'.store[base..] == d.store[base..] + Copies(e, n);
  }

  lemma ObeysExtends(c: Config, s: State, run: seq<Label>, lab: Label, g: Guards)
    requires Configured(c) && IsRun(c, s, run) && Obeys(c, s, run, g) && Enabled(After(c, s, run), lab)
    requires Lawful(g, |s.data.store|, After(c, s, run), lab)
    ensures IsRun(c, s, run + [lab]) && Obeys(c, s, run + [lab], g)
    ensures After(c, s, run + [lab]) == Apply(c, After(c, s, run), lab)
  {
    var longer := run + [lab];
    assert longer[..|longer| - 1] == run && longer[|longer| - 1] == lab;
  }

  /** The request can be answered in some way its route knows. */
  ghost predicate CanAnswer(g: Guards, req: Request) {
    exists status, body :: status in Statuses(RouteOf(req.verb, req.path)) && g.replies(req, status, body)
  }
}
