/** What ships: the worklist that finds it, and the dependency edges drawn between what it finds. */
module Sbom {
  import opened Wrappers

  type Id = string

  datatype Kind = Normal | BuildKind | Dev | OtherKind(name: string)

  /** A resolved dependency; `kinds` is absent when the resolver gave no `dep_kinds`. */
  datatype Dep = Dep(pkg: Id, kinds: Option<seq<Kind>>)

  datatype Package = Package(name: string, version: string)

  /** The resolver's answer: packages in its order, and for each node what it depends on. */
  datatype Meta = Meta(order: seq<Id>, packages: map<Id, Package>, nodes: map<Id, seq<Dep>>)

  const SHIPPED_ROOTS: set<string> := {"warden-connect-cli", "warden-connect-mediator"}

  ghost predicate WellFormed(m: Meta) {
    forall id :: id in m.order <==> id in m.packages
  }

  function Kinds(d: Dep): set<Kind> {
    if d.kinds.None? then {Normal} else set k | k in d.kinds.value
  }

  /** Traversal leaves out a dependency that is there for tests alone. */
  predicate Followed(d: Dep) {
    !(Kinds(d) != {} && Kinds(d) <= {Dev})
  }

  /** Drawing leaves it out too, and also one with an empty kind list. */
  predicate Drawn(d: Dep) {
    !(Kinds(d) <= {Dev})
  }

  function Deps(m: Meta, id: Id): seq<Dep> {
    if id in m.nodes then m.nodes[id] else []
  }

  predicate IsRoot(m: Meta, id: Id) {
    id in m.packages && m.packages[id].name in SHIPPED_ROOTS
  }

  predicate Leads(m: Meta, a: Id, b: Id) {
    exists d <- Deps(m, a) :: Followed(d) && d.pkg == b
  }

  ghost predicate IsPath(m: Meta, p: seq<Id>) {
    && p != [] && IsRoot(m, p[0])
    && forall i :: 0 <= i < |p| - 1 ==> Leads(m, p[i], p[i + 1])
  }

  /** Some chain of followed dependencies leads from a shipped binary to the package. */
  ghost predicate Ships(m: Meta, id: Id) {
    exists p :: IsPath(m, p) && p[|p| - 1] == id
  }

  lemma RootShips(m: Meta, id: Id)
    requires IsRoot(m, id)
    ensures Ships(m, id)
  {
    assert IsPath(m, [id]);
  }

  lemma NextShips(m: Meta, a: Id, b: Id)
    requires Ships(m, a) && Leads(m, a, b)
    ensures Ships(m, b)
  {
    var p :| IsPath(m, p) && p[|p| - 1] == a;
    var q := p + [b];
    forall i | 0 <= i < |q| - 1 ensures Leads(m, q[i], q[i + 1]) {
      if i < |p| - 1 { assert q[i] == p[i] && q[i + 1] == p[i + 1]; }
    }
    assert IsPath(m, q) && q[|q| - 1] == b;
  }

  /** A set with every root and closed under followed dependencies has everything that ships. */
  lemma {:induction false} ClosedSetHasAll(m: Meta, s: set<Id>, p: seq<Id>)
    requires (forall id | IsRoot(m, id) :: id in s) && (forall a, b | a in s && Leads(m, a, b) :: b in s)
    requires IsPath(m, p)
    ensures p[|p| - 1] in s
    decreases |p|
  {
    if |p| > 1 {
      var q := p[..|p| - 1];
      assert forall i :: 0 <= i < |q| - 1 ==> Leads(m, q[i], q[i + 1]);
      ClosedSetHasAll(m, s, q);
      assert Leads(m, p[|p| - 2], p[|p| - 1]);
    }
  }

  /** Every id the worklist can come across. */
  ghost function Universe(m: Meta): set<Id> {
    (set id | id in m.order) + (set id, d | id in m.nodes && d in m.nodes[id] :: d.pkg)
  }

  method Roots(m: Meta) returns (roots: seq<Id>)
    requires WellFormed(m)
    ensures forall id :: id in roots <==> IsRoot(m, id)
    ensures forall id :: id in roots <==>
              id in m.packages && m.packages[id].name in ["warden-connect-cli", "warden-connect-mediator"]
  {
    roots := [];
    for i := 0 to |m.order|
      invariant forall id :: id in roots <==> id in m.order[..i] && IsRoot(m, id)
    {
      var pid := m.order[i];
      assert pid in m.order;
      assert m.order[..i + 1] == m.order[..i] + [pid];
      if m.packages[pid].name in SHIPPED_ROOTS { roots := roots + [pid]; }
    }
    assert m.order[..|m.order|] == m.order;
  }

  /** Push what a newly seen package leads to. */
  method PushDeps(m: Meta, pid: Id, stack: seq<Id>) returns (pushed: seq<Id>)
    ensures forall id :: id in pushed <==> id in stack || Leads(m, pid, id)
  {
    var deps := Deps(m, pid);
    pushed := stack;
    for i := 0 to |deps|
      invariant forall id :: id in pushed <==> id in stack || exists d <- deps[..i] :: Followed(d) && d.pkg == id
    {
      var d := deps[i];
      assert deps[..i + 1] == deps[..i] + [d];
      if Kinds(d) != {} && Kinds(d) <= {Dev} { continue; }
      pushed := pushed + [d.pkg];
    }
    assert deps[..|deps|] == deps;
  }

  /** Nothing found does not ship; nothing that ships is out of reach of what is left to do. */
  ghost predicate OnTrack(m: Meta, seen: set<Id>, stack: seq<Id>) {
    && (forall id | id in stack || id in seen :: Ships(m, id))
    && (forall id | id in stack :: id in Universe(m))
    && (forall id | IsRoot(m, id) :: id in seen || id in stack)
    && (forall a, b | a in seen && Leads(m, a, b) :: b in seen || b in stack)
  }

  lemma StartOnTrack(m: Meta, roots: seq<Id>)
    requires WellFormed(m) && forall id :: id in roots <==> IsRoot(m, id)
    ensures OnTrack(m, {}, roots)
  {
    forall id | id in roots ensures Ships(m, id) && id in Universe(m) { RootShips(m, id); }
  }

  lemma SkipOnTrack(m: Meta, seen: set<Id>, stack: seq<Id>, pid: Id)
    requires OnTrack(m, seen, stack + [pid]) && pid in seen
    ensures OnTrack(m, seen, stack)
  {
    assert forall id :: id in stack + [pid] <==> id in stack || id == pid;
  }

  lemma VisitOnTrack(m: Meta, seen: set<Id>, stack: seq<Id>, pid: Id, pushed: seq<Id>)
    requires OnTrack(m, seen, stack + [pid])
    requires forall id :: id in pushed <==> id in stack || Leads(m, pid, id)
    ensures pid in Universe(m) && OnTrack(m, seen + {pid}, pushed)
  {
    assert forall id :: id in stack + [pid] <==> id in stack || id == pid;
    forall b | Leads(m, pid, b) ensures Ships(m, b) && b in Universe(m) {
      NextShips(m, pid, b);
      var d :| d in Deps(m, pid) && Followed(d) && d.pkg == b;
      assert pid in m.nodes && d in m.nodes[pid];
    }
  }

  lemma DoneOnTrack(m: Meta, seen: set<Id>)
    requires OnTrack(m, seen, [])
    ensures forall id :: id in seen <==> Ships(m, id)
  {
    forall id | Ships(m, id) ensures id in seen {
      var p :| IsPath(m, p) && p[|p| - 1] == id;
      ClosedSetHasAll(m, seen, p);
    }
  }

  /** The worklist ends on any graph, cycles included, and returns exactly what ships. */
  method ShippedIds(m: Meta) returns (r: Option<set<Id>>)
    requires WellFormed(m)
    ensures r.None? <==> forall id :: !IsRoot(m, id)
    ensures r.Some? ==> forall id :: id in r.value <==> Ships(m, id)
  {
    var roots := Roots(m);
    if roots == [] { return None; }
    assert IsRoot(m, roots[0]);
    StartOnTrack(m, roots);
    var seen := Traverse(m, roots);
    r := Some(seen);
  }

  ghost function Left(m: Meta, seen: set<Id>): set<Id> {
    Universe(m) - seen
  }

  lemma VisitShrinks(m: Meta, seen: set<Id>, pid: Id)
    requires pid in Universe(m) && pid !in seen
    ensures Left(m, seen + {pid}) < Left(m, seen)
  {
    assert pid in Left(m, seen) && pid !in Left(m, seen + {pid});
  }

  /** One id off the stack. */
  method Visit(m: Meta, seen: set<Id>, stack: seq<Id>) returns (seen': set<Id>, stack': seq<Id>)
    requires stack != [] && OnTrack(m, seen, stack)
    ensures OnTrack(m, seen', stack')
    ensures Left(m, seen') < Left(m, seen) || (seen' == seen && |stack'| < |stack|)
  {
    var pid := stack[|stack| - 1];
    var rest := stack[..|stack| - 1];
    assert stack == rest + [pid];
    if pid in seen {
      SkipOnTrack(m, seen, rest, pid);
      return seen, rest;
    }
    var pushed := PushDeps(m, pid, rest);
    VisitOnTrack(m, seen, rest, pid, pushed);
    VisitShrinks(m, seen, pid);
    return seen + {pid}, pushed;
  }

  method Traverse(m: Meta, roots: seq<Id>) returns (seen: set<Id>)
    requires OnTrack(m, {}, roots)
    ensures forall id :: id in seen <==> Ships(m, id)
  {
    seen := {};
    var stack := roots;
    while stack != []
      invariant OnTrack(m, seen, stack)
      decreases Left(m, seen), |stack|
    {
      seen, stack := Visit(m, seen, stack);
    }
    DoneOnTrack(m, seen);
  }

  // ---------------------------------------------------------------------------
  // Edges
  // ---------------------------------------------------------------------------

  function Ref(p: Package): string {
    p.name + "@" + p.version
  }

  datatype Edges = Edges(ref: string, dependsOn: seq<string>)

  /** The targets drawn for one package. */
  ghost predicate TargetsOf(m: Meta, ids: set<Id>, pid: Id, targets: seq<string>) {
    forall t :: t in targets <==>
      exists d <- Deps(m, pid) ::
        && d.pkg in ids && Drawn(d) && d.pkg in m.packages
        && t == m.packages[d.pkg].name + "@" + m.packages[d.pkg].version
  }

  method Targets(m: Meta, ids: set<Id>, pid: Id) returns (targets: seq<string>)
    requires forall id <- ids :: id in m.packages
    ensures TargetsOf(m, ids, pid, targets)
  {
    var deps := Deps(m, pid);
    targets := [];
    for i := 0 to |deps|
      invariant forall t :: t in targets <==>
        exists d <- deps[..i] :: d.pkg in ids && Drawn(d) && d.pkg in m.packages && t == Ref(m.packages[d.pkg])
    {
      var d := deps[i];
      assert deps[..i + 1] == deps[..i] + [d];
      if d.pkg in ids && !(Kinds(d) <= {Dev}) {
        targets := targets + [Ref(m.packages[d.pkg])];
      }
    }
    assert deps[..|deps|] == deps;
  }

  /** One record per shipped package; a package the resolver never described is an error. */
  method BuildEdges(m: Meta, order: seq<Id>, ids: set<Id>) returns (r: Option<seq<Edges>>)
    requires forall id :: id in order <==> id in ids
    ensures r.Some? <==> forall id <- ids :: id in m.packages
    ensures r.Some? ==> |r.value| == |order|
    ensures r.Some? ==> forall i :: 0 <= i < |order| ==>
              && order[i] in m.packages
              && r.value[i].ref == m.packages[order[i]].name + "@" + m.packages[order[i]].version
              && TargetsOf(m, ids, order[i], r.value[i].dependsOn)
  {
    if !(forall id <- ids :: id in m.packages) { return None; }
    var records: seq<Edges> := [];
    for i := 0 to |order|
      invariant |records| == i
      invariant forall k :: 0 <= k < i ==>
        && order[k] in m.packages
        && records[k].ref == Ref(m.packages[order[k]])
        && TargetsOf(m, ids, order[k], records[k].dependsOn)
    {
      assert order[i] in ids;
      var targets := Targets(m, ids, order[i]);
      records := records + [Edges(Ref(m.packages[order[i]]), targets)];
    }
    r := Some(records);
  }

  /** The publication check: some edge lands on nothing the document describes. */
  ghost predicate Dangles(components: set<string>, records: seq<Edges>) {
    exists i, t :: 0 <= i < |records| && t in records[i].dependsOn
                   && t !in components && forall k :: 0 <= k < |records| ==> records[k].ref != t
  }

  /** Edges made this way never trip the dangling check, whatever the component list holds. */
  lemma EdgesNeverDangle(m: Meta, order: seq<Id>, ids: set<Id>, records: seq<Edges>, components: set<string>)
    requires forall id :: id in order <==> id in ids
    requires |records| == |order|
    requires forall i :: 0 <= i < |order| ==>
               && order[i] in m.packages
               && records[i].ref == Ref(m.packages[order[i]])
               && TargetsOf(m, ids, order[i], records[i].dependsOn)
    ensures !Dangles(components, records)
  {
    forall i, t | 0 <= i < |records| && t in records[i].dependsOn
      ensures exists k :: 0 <= k < |records| && records[k].ref == t
    {
      var d :| d in Deps(m, order[i]) && d.pkg in ids && d.pkg in m.packages && t == Ref(m.packages[d.pkg]);
      assert d.pkg in order;
      var k :| 0 <= k < |order| && order[k] == d.pkg;
      assert records[k].ref == t;
    }
  }

  /** The two filters differ on exactly one input: an empty kind list is followed and not drawn. */
  lemma FiltersDifferOnEmptyKinds(d: Dep)
    ensures Drawn(d) ==> Followed(d)
    ensures Followed(d) && !Drawn(d) <==> d.kinds == Some([])
    ensures Drawn(d) <==> d.kinds.None? || exists k <- d.kinds.value :: k != Dev
  {
    if d.kinds.Some? && d.kinds.value != [] {
      assert d.kinds.value[0] in Kinds(d);
    }
    assert d.kinds.Some? ==> forall k :: k in d.kinds.value <==> k in Kinds(d);
    assert d.kinds.None? ==> Normal in Kinds(d);
  }

  // ---------------------------------------------------------------------------
  // What the drawn edges lead to
  // ---------------------------------------------------------------------------

  predicate DrawnLeads(m: Meta, a: Id, b: Id) {
    exists d <- Deps(m, a) :: Drawn(d) && d.pkg == b
  }

  ghost predicate IsDrawnPath(m: Meta, p: seq<Id>) {
    && p != [] && IsRoot(m, p[0])
    && forall i :: 0 <= i < |p| - 1 ==> DrawnLeads(m, p[i], p[i + 1])
  }

  /** A reader of the document can follow edges to the package. */
  ghost predicate Charted(m: Meta, id: Id) {
    exists p :: IsDrawnPath(m, p) && p[|p| - 1] == id
  }

  lemma ChartedShips(m: Meta, id: Id)
    requires Charted(m, id)
    ensures Ships(m, id)
  {
    var p :| IsDrawnPath(m, p) && p[|p| - 1] == id;
    forall i | 0 <= i < |p| - 1 ensures Leads(m, p[i], p[i + 1]) {
      assert DrawnLeads(m, p[i], p[i + 1]);
      var d :| d in Deps(m, p[i]) && Drawn(d) && d.pkg == p[i + 1];
      FiltersDifferOnEmptyKinds(d);
    }
    assert IsPath(m, p);
  }

  lemma NextCharted(m: Meta, a: Id, b: Id)
    requires Charted(m, a) && DrawnLeads(m, a, b)
    ensures Charted(m, b)
  {
    var p :| IsDrawnPath(m, p) && p[|p| - 1] == a;
    var q := p + [b];
    forall i | 0 <= i < |q| - 1 ensures DrawnLeads(m, q[i], q[i + 1]) {
      if i < |p| - 1 { assert q[i] == p[i] && q[i + 1] == p[i + 1]; }
    }
    assert IsDrawnPath(m, q) && q[|q| - 1] == b;
  }

  /** No dependency with an empty kind list leads out of what is charted. */
  ghost predicate Sealed(m: Meta) {
    forall a, d | Charted(m, a) && d in Deps(m, a) && d.kinds == Some([]) :: Charted(m, d.pkg)
  }

  lemma {:induction false} SealedReaches(m: Meta, p: seq<Id>)
    requires Sealed(m) && IsPath(m, p)
    ensures Charted(m, p[|p| - 1])
    decreases |p|
  {
    if |p| == 1 {
      assert IsDrawnPath(m, [p[0]]);
    } else {
      var q := p[..|p| - 1];
      assert forall i :: 0 <= i < |q| - 1 ==> Leads(m, q[i], q[i + 1]);
      SealedReaches(m, q);
      var a, b := p[|p| - 2], p[|p| - 1];
      assert Leads(m, a, b);
      var d :| d in Deps(m, a) && Followed(d) && d.pkg == b;
      FiltersDifferOnEmptyKinds(d);
      if Drawn(d) { NextCharted(m, a, b); }
    }
  }

  /** Every shipped package can be reached over drawn edges if and only if no empty kind list leads out of what can. */
  lemma NothingOrphanedExactlyWhen(m: Meta)
    ensures (forall id :: Ships(m, id) ==> Charted(m, id)) <==> Sealed(m)
  {
    if Sealed(m) {
      forall id | Ships(m, id) ensures Charted(m, id) {
        var p :| IsPath(m, p) && p[|p| - 1] == id;
        SealedReaches(m, p);
      }
    }
    if forall id :: Ships(m, id) ==> Charted(m, id) {
      forall a, d | Charted(m, a) && d in Deps(m, a) && d.kinds == Some([]) ensures Charted(m, d.pkg) {
        ChartedShips(m, a);
        FiltersDifferOnEmptyKinds(d);
        assert Leads(m, a, d.pkg);
        NextShips(m, a, d.pkg);
      }
    }
  }

  /** In particular it can when no shipped package has such a dependency. */
  lemma NoEmptyKindsNoOrphans(m: Meta, id: Id)
    requires forall a, d | Ships(m, a) && d in Deps(m, a) :: d.kinds != Some([])
    ensures Ships(m, id) <==> Charted(m, id)
  {
    forall a, d | Charted(m, a) && d in Deps(m, a) ensures d.kinds != Some([]) {
      ChartedShips(m, a);
    }
    NothingOrphanedExactlyWhen(m);
    if Charted(m, id) { ChartedShips(m, id); }
  }

  const ORPHANING: Meta := Meta(
    ["cli", "dep"],
    map["cli" := Package("warden-connect-cli", "1"), "dep" := Package("dep", "1")],
    map["cli" := [Dep("dep", Some([]))]])

  /** A graph in which one package ships and no drawn edge leads to it. */
  lemma EmptyKindsOrphan()
    ensures WellFormed(ORPHANING) && Ships(ORPHANING, "dep") && !Charted(ORPHANING, "dep")
  {
    var m, d := ORPHANING, Dep("dep", Some([]));
    assert IsRoot(m, "cli") && "cli"[0] != "dep"[0];
    RootShips(m, "cli");
    FiltersDifferOnEmptyKinds(d);
    assert d in Deps(m, "cli");
    assert Leads(m, "cli", "dep");
    NextShips(m, "cli", "dep");
    forall p | IsDrawnPath(m, p) ensures p[|p| - 1] != "dep" {
      OrphanPath(p);
    }
  }

  lemma NoDrawnEdges(a: Id, b: Id)
    ensures !DrawnLeads(ORPHANING, a, b)
  {
    FiltersDifferOnEmptyKinds(Dep("dep", Some([])));
  }

  lemma OrphanPath(p: seq<Id>)
    requires IsDrawnPath(ORPHANING, p)
    ensures p[|p| - 1] != "dep"
  {
    assert "warden-connect-cli"[0] != "dep"[0] && "warden-connect-mediator"[0] != "dep"[0];
    assert |p| == 1 || DrawnLeads(ORPHANING, p[0], p[1]);
    if |p| > 1 { NoDrawnEdges(p[0], p[1]); }
  }
}
