/** Risk tiers: 1 is the most sensitive, 4 the least. */
module Tier {
  import opened Wrappers
  import opened Text
  import Sorting

  // ---------------------------------------------------------------------------
  // Documents
  // ---------------------------------------------------------------------------

  datatype Json =
    | Null
    | Bool(flag: bool)
    | Number(value: int)
    | Str(text: string)
    | Array(items: seq<Json>)
    | Object(fields: map<string, Json>)

  function Get(v: Json, key: string): Option<Json> {
    if v.Object? && key in v.fields then Some(v.fields[key]) else None
  }

  /** A field of a field that may be missing. */
  function At(v: Option<Json>, key: string): Option<Json> {
    if v.Some? then Get(v.value, key) else None
  }

  predicate IsTrue(v: Option<Json>) {
    v == Some(Bool(true))
  }

  function TextOf(v: Option<Json>): string {
    if v.Some? && v.value.Str? then v.value.text else ""
  }

  // ---------------------------------------------------------------------------
  // One item
  // ---------------------------------------------------------------------------

  /** What names are searched for, most sensitive class first, and the residency groups. */
  datatype Rules = Rules(first: seq<string>, second: seq<string>, third: seq<string>, groups: seq<seq<string>>)

  predicate Mentions(text: string, keywords: seq<string>) {
    exists k <- keywords :: HasSub(text, k)
  }

  /** The class the name alone gives, if it gives one. */
  function NameClass(name: string, r: Rules): Option<int> {
    var lower := Lower(name);
    if Mentions(lower, r.first) then Some(1)
    else if Mentions(lower, r.second) then Some(2)
    else if Mentions(lower, r.third) then Some(3)
    else None
  }

  function Haystack(name: string, item: Json): string {
    Lower(name) + " " + Lower(TextOf(Get(item, "description")))
  }

  predicate Destructive(item: Json) {
    IsTrue(At(Get(item, "annotations"), "destructiveHint"))
  }

  predicate ReadOnly(item: Json) {
    IsTrue(At(Get(item, "annotations"), "readOnlyHint"))
  }

  function CapabilityClass(name: string, item: Json, r: Rules): (rank: int)
    ensures 1 <= rank <= 3
  {
    var spoken :=
      match NameClass(name, r)
      case Some(c) => c
      case None => if Mentions(Haystack(name, item), r.first) then 1 else 2;
    var hinted := if Destructive(item) then Least(spoken, 1) else spoken;
    if ReadOnly(item) && hinted >= 3 then 3 else hinted
  }

  predicate Unbounded(name: string, item: Json) {
    || '*' in name
    || '?' in name
    || (var schema := Get(item, "inputSchema");
        var properties := At(schema, "properties");
        && IsTrue(At(schema, "additionalProperties"))
        && !(properties.Some? && properties.value.Object? && properties.value.fields != map[]))
  }

  function DataClassTier(dataClass: string): (tier: int)
    ensures 1 <= tier <= 4
  {
    var lower := Lower(dataClass);
    if lower in ["restricted", "pii", "phi", "pci", "secret"] then 1
    else if lower == "confidential" then 2
    else if lower == "internal" then 3
    else if lower == "public" then 4
    else 2
  }

  // ---------------------------------------------------------------------------
  // A whole surface
  // ---------------------------------------------------------------------------

  datatype Kind = McpTools | A2aCard

  datatype Surface = Surface(kind: Kind, raw: Json)

  datatype Item = Item(name: string, document: Json)

  datatype Declared = Declared(dataClasses: seq<string>, jurisdictions: seq<string>)

  function AsArray(v: Option<Json>): Option<seq<Json>> {
    if v.Some? && v.value.Array? then Some(v.value.items) else None
  }

  function ItemList(s: Surface): Option<seq<Json>> {
    match s.kind
    case McpTools =>
      var tools := AsArray(Get(s.raw, "tools"));
      if tools.Some? then tools else AsArray(Some(s.raw))
    case A2aCard => AsArray(Get(s.raw, "skills"))
  }

  function NameOf(v: Json): Option<string> {
    var named := if Get(v, "name").Some? then Get(v, "name") else Get(v, "id");
    if named.Some? && named.value.Str? then Some(named.value.text) else None
  }

  /** The documents that have a name, each with it. */
  function Named(documents: seq<Json>): seq<Item> {
    if documents == [] then []
    else
      var rest := Named(documents[1..]);
      match NameOf(documents[0])
      case Some(name) => [Item(name, documents[0])] + rest
      case None => rest
  }

  function Items(s: Surface): seq<Item> {
    match ItemList(s)
    case Some(documents) => Named(documents)
    case None => []
  }

  function ClassOf(item: Item, r: Rules): (rank: int)
    ensures 1 <= rank <= 3
  {
    CapabilityClass(item.name, item.document, r)
  }

  predicate IsUnbounded(item: Item) {
    Unbounded(item.name, item.document)
  }

  function Least(a: int, b: int): int {
    if a <= b then a else b
  }

  function BaseTier(dataClasses: seq<string>): (tier: int)
    ensures 1 <= tier <= 4
    ensures dataClasses == [] ==> tier == 2
    ensures forall i :: 0 <= i < |dataClasses| ==> tier <= DataClassTier(dataClasses[i])
    ensures dataClasses != [] ==> exists i :: 0 <= i < |dataClasses| && tier == DataClassTier(dataClasses[i])
  {
    if dataClasses == [] then 2
    else if |dataClasses| == 1 then DataClassTier(dataClasses[0])
    else Least(DataClassTier(dataClasses[0]), BaseTier(dataClasses[1..]))
  }

  function Cap(items: seq<Item>, r: Rules): (cap: int)
    ensures 1 <= cap <= 4
    ensures forall item <- items :: cap <= ClassOf(item, r)
    ensures cap < 4 ==> exists item <- items :: cap == ClassOf(item, r)
  {
    if items == [] then 4 else Least(ClassOf(items[0], r), Cap(items[1..], r))
  }

  predicate AnyUnbounded(items: seq<Item>) {
    exists item <- items :: IsUnbounded(item)
  }

  // ---------------------------------------------------------------------------
  // Residency
  // ---------------------------------------------------------------------------

  type Groups = seq<seq<string>>

  /** The first group that holds the jurisdiction, whatever its case. */
  function GroupOf(jurisdiction: string, groups: Groups): (at: Option<nat>)
    ensures at.Some? ==> at.value < |groups| && Upper(jurisdiction) in groups[at.value]
    ensures forall g :: 0 <= g < (if at.Some? then at.value else |groups|) ==> Upper(jurisdiction) !in groups[g]
  {
    if groups == [] then None
    else if Upper(jurisdiction) in groups[0] then Some(0)
    else
      match GroupOf(jurisdiction, groups[1..])
      case Some(g) => assert groups[g + 1] == groups[1..][g]; Some(g + 1)
      case None => None
  }

  predicate Apart(a: string, b: string, groups: Groups) {
    GroupOf(a, groups).Some? && GroupOf(b, groups).Some? && GroupOf(a, groups) != GroupOf(b, groups)
  }

  predicate Spans(jurisdictions: seq<string>, groups: Groups) {
    exists a <- jurisdictions, b <- jurisdictions :: Apart(a, b, groups)
  }

  /** Neighbouring duplicates dropped. */
  method Dedup(s: seq<nat>) returns (d: seq<nat>)
    requires Sorting.Sorted(s)
    ensures forall v :: v in d <==> v in s
    ensures forall i, j :: 0 <= i < j < |d| ==> d[i] < d[j]
  {
    d := [];
    for i := 0 to |s|
      invariant forall v :: v in d <==> v in s[..i]
      invariant forall j, k :: 0 <= j < k < |d| ==> d[j] < d[k]
      invariant if i == 0 then d == [] else d != [] && d[|d| - 1] == s[i - 1]
    {
      assert s[..i + 1] == s[..i] + [s[i]];
      if d == [] || d[|d| - 1] != s[i] {
        assert d != [] ==> d[|d| - 1] < s[i];
        d := d + [s[i]];
      }
    }
    assert s[..|s|] == s;
  }

  /** Sorting and deduplicating the group numbers finds two exactly when two jurisdictions are in different groups. */
  method SpansResidencyGroups(jurisdictions: seq<string>, groups: Groups) returns (spans: bool)
    ensures spans <==> Spans(jurisdictions, groups)
  {
    var found: seq<nat> := [];
    for i := 0 to |jurisdictions|
      invariant forall g :: g in found <==> g in GroupsOf(jurisdictions[..i], groups)
    {
      assert jurisdictions[..i + 1] == jurisdictions[..i] + [jurisdictions[i]];
      GroupsOfAppends(jurisdictions[..i], jurisdictions[i], groups);
      var at := GroupOf(jurisdictions[i], groups);
      if at.Some? {
        found := found + [at.value];
      }
    }
    assert jurisdictions[..|jurisdictions|] == jurisdictions;
    var sorted := Sorting.Sort(found);
    assert forall g :: g in found <==> g in multiset(found);
    assert forall g :: g in sorted <==> g in multiset(sorted);
    var distinct := Dedup(sorted);
    spans := |distinct| > 1;
    TwoDistinct(distinct, GroupsOf(jurisdictions, groups));
    SpansMeansTwo(jurisdictions, groups);
  }

  lemma GroupsOfAppends(jurisdictions: seq<string>, j: string, groups: Groups)
    ensures GroupsOf(jurisdictions + [j], groups) == GroupsOf(jurisdictions, groups)
              + (match GroupOf(j, groups) case Some(g) => {g} case None => {})
  {
    var all := jurisdictions + [j];
    assert forall k :: k in all <==> k in jurisdictions || k == j;
  }

  function GroupsOf(jurisdictions: seq<string>, groups: Groups): set<nat> {
    set j | j in jurisdictions && GroupOf(j, groups).Some? :: GroupOf(j, groups).value
  }

  lemma SpansMeansTwo(jurisdictions: seq<string>, groups: Groups)
    ensures Spans(jurisdictions, groups) <==>
              exists g, h :: g in GroupsOf(jurisdictions, groups) && h in GroupsOf(jurisdictions, groups) && g != h
  {
    if Spans(jurisdictions, groups) {
      var a, b :| a in jurisdictions && b in jurisdictions && Apart(a, b, groups);
      assert GroupOf(a, groups).value in GroupsOf(jurisdictions, groups);
      assert GroupOf(b, groups).value in GroupsOf(jurisdictions, groups);
    }
    if g, h :| g in GroupsOf(jurisdictions, groups) && h in GroupsOf(jurisdictions, groups) && g != h {
      var a :| a in jurisdictions && GroupOf(a, groups) == Some(g);
      var b :| b in jurisdictions && GroupOf(b, groups) == Some(h);
      assert Apart(a, b, groups);
    }
  }

  /** A strictly ascending list of a set is longer than one exactly when the set has two members. */
  lemma TwoDistinct(distinct: seq<nat>, members: set<nat>)
    requires forall i, j :: 0 <= i < j < |distinct| ==> distinct[i] < distinct[j]
    requires forall g :: g in distinct <==> g in members
    ensures |distinct| > 1 <==> exists g, h :: g in members && h in members && g != h
  {
    if |distinct| > 1 {
      assert distinct[0] in distinct && distinct[1] in distinct;
    }
    if g, h :| g in members && h in members && g != h {
      assert g in distinct && h in distinct;
    }
  }

  // ---------------------------------------------------------------------------
  // Derivation
  // ---------------------------------------------------------------------------

  function Count(b: bool): nat { if b then 1 else 0 }

  function Escalations(d: Declared, s: Surface, internal: bool, r: Rules): nat {
    Count(!internal) + Count(AnyUnbounded(Items(s))) + Count(Spans(d.jurisdictions, r.groups))
  }

  /** The closed form. */
  function Derived(d: Declared, s: Surface, internal: bool, r: Rules): (tier: int)
    ensures 1 <= tier <= 4
  {
    var tier := Least(BaseTier(d.dataClasses), Cap(Items(s), r)) - Escalations(d, s, internal, r);
    if tier < 1 then 1 else tier
  }

  /** The first item at the class the surface is held to, as the approver is shown it. */
  ghost predicate IsFirstMostSensitive(items: seq<Item>, name: string, r: Rules) {
    exists i: nat ::
      && i < |items|
      && items[i].name == name
      && (forall k :: 0 <= k < |items| ==> ClassOf(items[i], r) <= ClassOf(items[k], r))
      && (forall k :: 0 <= k < i ==> ClassOf(items[i], r) < ClassOf(items[k], r))
  }

  /** One step more sensitive, and never past 1. */
  function Escalated(tier: int): int {
    var less := if tier >= 1 then tier - 1 else 0;
    if less < 1 then 1 else less
  }

  method DeriveTier(d: Declared, s: Surface, internal: bool, r: Rules) returns (tier: int, capItem: string)
    ensures tier == Derived(d, s, internal, r)
    ensures if Items(s) == [] then capItem == "" else IsFirstMostSensitive(Items(s), capItem, r)
  {
    var items := Items(s);
    var cap, unbounded;
    cap, capItem, unbounded := Survey(items, r);
    tier := Least(BaseTier(d.dataClasses), cap);
    if !internal {
      tier := Escalated(tier);
    }
    if unbounded {
      tier := Escalated(tier);
    }
    var spans := SpansResidencyGroups(d.jurisdictions, r.groups);
    if spans {
      tier := Escalated(tier);
    }
    tier := if tier < 1 then 1 else if tier > 4 then 4 else tier;
  }

  /** What the loop over the items looks at. */
  datatype Rating = Rating(rank: int, unbounded: bool)

  function Rate(item: Item, r: Rules): Rating {
    Rating(ClassOf(item, r), IsUnbounded(item))
  }

  ghost predicate Rates(ratings: seq<Rating>, items: seq<Item>, r: Rules) {
    |ratings| == |items| && forall k :: 0 <= k < |items| ==> ratings[k] == Rate(items[k], r)
  }

  /** `at` is the first of the lowest ranks. */
  ghost predicate FirstLowest(ratings: seq<Rating>, at: nat) {
    && at < |ratings|
    && (forall k :: 0 <= k < |ratings| ==> ratings[at].rank <= ratings[k].rank)
    && (forall k :: 0 <= k < at ==> ratings[at].rank < ratings[k].rank)
  }

  lemma LowestExtends(ratings: seq<Rating>, at: nat, x: Rating)
    requires FirstLowest(ratings, at)
    ensures FirstLowest(ratings + [x], if x.rank < ratings[at].rank then |ratings| else at)
  {
    assert forall k :: 0 <= k < |ratings| ==> (ratings + [x])[k] == ratings[k];
  }

  lemma RatingExtends(ratings: seq<Rating>, items: seq<Item>, i: nat, r: Rules)
    requires i < |items| && Rates(ratings, items[..i], r)
    ensures Rates(ratings + [Rate(items[i], r)], items[..i + 1], r)
    ensures 1 <= Rate(items[i], r).rank <= 3
  {
  }

  /** The loop over the items. */
  method Survey(items: seq<Item>, r: Rules) returns (cap: int, capItem: string, unbounded: bool)
    ensures cap == Cap(items, r) && unbounded == AnyUnbounded(items)
    ensures if items == [] then capItem == "" else IsFirstMostSensitive(items, capItem, r)
  {
    cap, capItem, unbounded := 4, "", false;
    ghost var at, ratings := 0, [];
    for i := 0 to |items|
      invariant Rates(ratings, items[..i], r)
      invariant unbounded <==> exists k :: 0 <= k < i && ratings[k].unbounded
      invariant if i == 0 then cap == 4 && capItem == ""
                else FirstLowest(ratings, at) && cap == ratings[at].rank <= 3 && capItem == items[at].name
    {
      var rating := Rate(items[i], r);
      RatingExtends(ratings, items, i, r);
      if i > 0 { LowestExtends(ratings, at, rating); }
      ratings := ratings + [rating];
      if rating.rank < cap {
        at := i;
        cap, capItem := rating.rank, items[i].name;
      }
      if rating.unbounded {
        unbounded := true;
      }
    }
    assert items[..|items|] == items;
    if items != [] {
      SurveyMeans(items, ratings, at, r);
    }
    UnboundedMeans(items, ratings, r);
  }

  lemma SurveyMeans(items: seq<Item>, ratings: seq<Rating>, at: nat, r: Rules)
    requires Rates(ratings, items, r) && FirstLowest(ratings, at)
    ensures ratings[at].rank == Cap(items, r)
    ensures IsFirstMostSensitive(items, items[at].name, r)
  {
    forall k | 0 <= k < |items| ensures ClassOf(items[k], r) == ratings[k].rank {
      assert ratings[k] == Rate(items[k], r);
    }
    CapIs(items, ratings[at].rank, at, r);
  }

  lemma UnboundedMeans(items: seq<Item>, ratings: seq<Rating>, r: Rules)
    requires Rates(ratings, items, r)
    ensures AnyUnbounded(items) <==> exists k :: 0 <= k < |ratings| && ratings[k].unbounded
  {
    if AnyUnbounded(items) {
      var item :| item in items && IsUnbounded(item);
      var k :| 0 <= k < |items| && items[k] == item;
      assert ratings[k] == Rate(items[k], r);
    }
    if k :| 0 <= k < |ratings| && ratings[k].unbounded {
      assert ratings[k] == Rate(items[k], r) && items[k] in items;
    }
  }

  lemma CapIs(items: seq<Item>, cap: int, at: nat, r: Rules)
    requires forall k :: 0 <= k < |items| ==> cap <= ClassOf(items[k], r)
    requires at < |items| && cap == ClassOf(items[at], r)
    ensures cap == Cap(items, r)
  {
    assert items[at] in items;
  }
}
