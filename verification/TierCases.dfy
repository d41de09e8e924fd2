/** The tier of the smallest parties, from what they declare, letter by letter. */
module TierCases {
  import Wrappers
  import opened Text
  import opened Tier
  import opened TierLaws
  import opened TierNames

  // ---------------------------------------------------------------------------
  // One data class
  // ---------------------------------------------------------------------------

  /** In any case. */
  predicate OneOf(text: string, words: seq<string>) {
    exists w <- words :: SameWord(text, w)
  }

  lemma {:induction false} OneOfIsLowered(text: string, words: seq<string>)
    requires forall w <- words :: NoCapitals(w)
    ensures OneOf(text, words) <==> Lower(text) in words
  {
    forall w <- words ensures SameWord(text, w) <==> Lower(text) == w {
      LowerIsCaseless(text, w);
    }
  }

  lemma EmptyPartyHasItsBase(x: string, s: Surface, r: Rules)
    requires Items(s) == []
    ensures Derived(Declared([x], []), s, true, r) == DataClassTier(x)
  {
    assert BaseTier([x]) == DataClassTier([x][0]);
    assert Cap(Items(s), r) == 4 && !AnyUnbounded(Items(s)) && !Spans([], r.groups);
  }

  lemma DataClassIs(x: string)
    ensures var lower := Lower(x);
            && (lower in ["restricted", "pii", "phi", "pci", "secret"] ==> DataClassTier(x) == 1)
            && (lower == "confidential" ==> DataClassTier(x) == 2)
            && (lower == "internal" ==> DataClassTier(x) == 3)
            && (lower == "public" ==> DataClassTier(x) == 4)
            && (lower !in ["restricted", "pii", "phi", "pci", "secret", "internal", "public"] ==> DataClassTier(x) == 2)
  {
    assert |"restricted"| == 10 && |"confidential"| == 12 && |"internal"| == 8 && |"public"| == 6;
    assert "secret"[0] == 's' && "public"[0] == 'p';
  }

  /** An internal party with one data class and nothing else: what each class is worth, in any spelling. */
  lemma OneDataClass(x: string, s: Surface, r: Rules)
    requires Items(s) == []
    ensures var tier := Derived(Declared([x], []), s, true, r);
            && (OneOf(x, ["restricted", "pii", "phi", "pci", "secret"]) ==> tier == 1)
            && (SameWord(x, "confidential") ==> tier == 2)
            && (SameWord(x, "internal") ==> tier == 3)
            && (SameWord(x, "public") ==> tier == 4)
            && (!OneOf(x, ["restricted", "pii", "phi", "pci", "secret", "internal", "public"]) ==> tier == 2)
  {
    EmptyPartyHasItsBase(x, s, r);
    OneOfIsLowered(x, ["restricted", "pii", "phi", "pci", "secret"]);
    OneOfIsLowered(x, ["restricted", "pii", "phi", "pci", "secret", "internal", "public"]);
    LowerIsCaseless(x, "confidential");
    LowerIsCaseless(x, "internal");
    LowerIsCaseless(x, "public");
    DataClassIs(x);
  }

  // ---------------------------------------------------------------------------
  // One item
  // ---------------------------------------------------------------------------

  /** A tool or skill, named under either key. */
  function Doc(key: string, name: string, description: string, destructive: bool, open: bool,
               props: map<string, Json>): Json
  {
    Object(map[
      key := Str(name),
      "description" := Str(description),
      "annotations" := Object(map["destructiveHint" := Bool(destructive)]),
      "inputSchema" := Object(map["additionalProperties" := Bool(open), "properties" := Object(props)])])
  }

  /** A surface with that one item, in the three forms one can have. */
  predicate Shows(s: Surface, doc: Json) {
    || s == Surface(McpTools, Object(map["tools" := Array([doc])]))
    || s == Surface(McpTools, Array([doc]))
    || s == Surface(A2aCard, Object(map["skills" := Array([doc])]))
  }

  /** A keyword stands somewhere in the text, in any case. */
  ghost predicate Within(text: string, keywords: seq<string>) {
    exists k, before, after :: k in keywords && Lower(text) == before + k + after
  }

  lemma WithinIsMentioned(text: string, keywords: seq<string>)
    ensures Within(text, keywords) <==> Mentions(Lower(text), keywords)
  {
    forall k <- keywords ensures HasSub(Lower(text), k) <==> exists before, after :: Lower(text) == before + k + after {
      HasSubIs(Lower(text), k);
    }
  }

  lemma DocFields(key: string, name: string, description: string, destructive: bool, open: bool,
                  props: map<string, Json>)
    requires key == "name" || key == "id"
    ensures var doc := Doc(key, name, description, destructive, open, props);
            && NameOf(doc) == Wrappers.Some(name)
            && TextOf(Get(doc, "description")) == description
            && (Destructive(doc) <==> destructive)
            && (Unbounded(name, doc) <==> '*' in name || '?' in name || (open && props == map[]))
  {
    assert |"name"| == 4 && |"id"| == 2 && |"description"| == 11 && "annotations"[0] == 'a' && "inputSchema"[0] == 'i';
    assert "description"[0] == 'd' && |"inputSchema"| == 11 && |"additionalProperties"| == 20 && |"properties"| == 10;
  }

  lemma OneItemListed(s: Surface, doc: Json, name: string)
    requires Shows(s, doc) && NameOf(doc) == Wrappers.Some(name)
    ensures Items(s) == [Item(name, doc)]
  {
    assert Named([doc]) == [Item(name, doc)] + Named([doc][1..]);
  }

  /** The class of one item, from its words and its hint. */
  ghost function Class(name: string, description: string, destructive: bool, r: Rules): int {
    if destructive || Within(name, r.first) then 1
    else if Within(name, r.second) then 2
    else if Within(name, r.third) then 3
    else if Within(description, r.first) then 1
    else 2
  }

  /** A public party with one item: its class, one step closer for each of an outside zone and an unbounded item. */
  lemma OneItem(s: Surface, key: string, name: string, description: string, destructive: bool, open: bool,
                props: map<string, Json>, internal: bool, r: Rules)
    requires key == "name" || key == "id"
    requires Shows(s, Doc(key, name, description, destructive, open, props)) && OneWordEach(r)
    ensures var wild := '*' in name || '?' in name || (open && props == map[]);
            var tier := Class(name, description, destructive, r) - Count(!internal) - Count(wild);
            Derived(Declared(["public"], []), s, internal, r) == if tier < 1 then 1 else tier
  {
    var doc := Doc(key, name, description, destructive, open, props);
    DocFields(key, name, description, destructive, open, props);
    OneItemListed(s, doc, name);
    OneItemIs(name, doc, r);
    ClassIs(name, doc, r);
    WithinIsMentioned(name, r.first);
    WithinIsMentioned(name, r.second);
    WithinIsMentioned(name, r.third);
    WithinIsMentioned(description, r.first);
    PublicIsFour();
    assert !Spans([], r.groups);
  }

  lemma OneItemIs(name: string, doc: Json, r: Rules)
    ensures Cap([Item(name, doc)], r) == CapabilityClass(name, doc, r)
    ensures AnyUnbounded([Item(name, doc)]) <==> Unbounded(name, doc)
  {
    var item := Item(name, doc);
    assert [item][0] == item && [item][1..] == [] && item in [item];
    assert Cap([], r) == 4;
  }

  lemma PublicIsFour()
    ensures BaseTier(["public"]) == 4
  {
    DeclaringPublicRelaxes(DEFAULT);
    assert Items(Surface(A2aCard, Null)) == [];
    EmptyPartyHasItsBase("public", Surface(A2aCard, Null), DEFAULT);
    assert BaseTier(["public"]) == DataClassTier(["public"][0]);
  }

  /** What has no name is no item. */
  lemma NamelessIsNoItem(s: Surface, doc: Json)
    requires Shows(s, doc)
    requires !doc.Object? || ("name" !in doc.fields && "id" !in doc.fields)
    ensures Items(s) == []
  {
    assert Named([doc]) == Named([doc][1..]) == [];
  }

  // ---------------------------------------------------------------------------
  // Two jurisdictions
  // ---------------------------------------------------------------------------

  /** `j`, in capitals, is in group `g` and in none before it. */
  predicate FirstIn(j: string, groups: Groups, g: nat) {
    g < |groups| && Upper(j) in groups[g] && forall k :: 0 <= k < g ==> Upper(j) !in groups[k]
  }

  /** Two jurisdictions escalate a public, empty, internal party exactly when their first groups differ. */
  lemma TwoJurisdictions(a: string, b: string, s: Surface, r: Rules)
    requires Items(s) == []
    ensures Derived(Declared(["public"], [a, b]), s, true, r)
            == if exists g: nat, h: nat :: g != h && FirstIn(a, r.groups, g) && FirstIn(b, r.groups, h) then 3 else 4
  {
    PublicIsFour();
    assert Cap(Items(s), r) == 4 && !AnyUnbounded(Items(s));
    GroupIsFirst(a, r.groups);
    GroupIsFirst(b, r.groups);
    assert [a, b][0] in [a, b] && [a, b][1] in [a, b];
    assert Spans([a, b], r.groups) <==> Apart(a, b, r.groups);
  }

  lemma GroupIsFirst(j: string, groups: Groups)
    ensures forall g: nat :: FirstIn(j, groups, g) <==> GroupOf(j, groups) == Wrappers.Some(g)
  {
  }
}
