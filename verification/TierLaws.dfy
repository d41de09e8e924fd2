/** What moves a tier, and what cannot. */
module TierLaws {
  import opened Wrappers
  import opened Text
  import opened Tier

  /** Everything in `a` is in `b`, wherever and however often. */
  predicate Within<T(==)>(a: seq<T>, b: seq<T>) {
    forall x <- a :: x in b
  }

  // ---------------------------------------------------------------------------
  // Declaring more
  // ---------------------------------------------------------------------------

  lemma MoreClassesLowerTheBase(a: seq<string>, b: seq<string>)
    requires Within(a, b) && (a == [] ==> b == [])
    ensures BaseTier(b) <= BaseTier(a)
  {
    if a != [] {
      var i :| 0 <= i < |a| && BaseTier(a) == DataClassTier(a[i]);
      assert a[i] in b;
    }
  }

  lemma MoreItemsLowerTheCap(a: seq<Item>, b: seq<Item>, r: Rules)
    requires Within(a, b)
    ensures Cap(b, r) <= Cap(a, r)
  {
    if Cap(a, r) < 4 {
      var item :| item in a && Cap(a, r) == ClassOf(item, r);
      assert item in b;
    }
  }

  lemma MoreItemsStayUnbounded(a: seq<Item>, b: seq<Item>)
    requires Within(a, b) && AnyUnbounded(a)
    ensures AnyUnbounded(b)
  {
    var item :| item in a && IsUnbounded(item);
    assert item in b;
  }

  lemma MoreJurisdictionsStillSpan(a: seq<string>, b: seq<string>, groups: Groups)
    requires Within(a, b) && Spans(a, groups)
    ensures Spans(b, groups)
  {
    var j, k :| j in a && k in a && Apart(j, k, groups);
    assert j in b && k in b;
  }

  /** A party declares at least what another does, on a surface with at least its items, in a zone no more trusted. */
  ghost predicate AtLeast(d: Declared, s: Surface, internal: bool, e: Declared, t: Surface, alsoInternal: bool) {
    && Within(d.dataClasses, e.dataClasses)
    && (d.dataClasses == [] ==> e.dataClasses == [])
    && Within(d.jurisdictions, e.jurisdictions)
    && Within(Items(s), Items(t))
    && (alsoInternal ==> internal)
  }

  lemma EscalationsGrow(d: Declared, s: Surface, internal: bool, e: Declared, t: Surface, alsoInternal: bool, r: Rules)
    requires AtLeast(d, s, internal, e, t, alsoInternal)
    ensures Escalations(d, s, internal, r) <= Escalations(e, t, alsoInternal, r)
  {
    if AnyUnbounded(Items(s)) {
      MoreItemsStayUnbounded(Items(s), Items(t));
    }
    if Spans(d.jurisdictions, r.groups) {
      MoreJurisdictionsStillSpan(d.jurisdictions, e.jurisdictions, r.groups);
    }
  }

  lemma ClosedFormIsMonotone(base: int, cap: int, up: nat, base': int, cap': int, up': nat, tier: int, tier': int)
    requires base' <= base && cap' <= cap && up <= up'
    requires tier == var t := Least(base, cap) - up; if t < 1 then 1 else t
    requires tier' == var t := Least(base', cap') - up'; if t < 1 then 1 else t
    ensures tier' <= tier
  {
  }

  /** Declaring more never buys a less sensitive tier. */
  lemma MoreIsNeverLessSensitive(d: Declared, s: Surface, internal: bool,
                                 e: Declared, t: Surface, alsoInternal: bool, r: Rules)
    requires AtLeast(d, s, internal, e, t, alsoInternal)
    ensures Derived(e, t, alsoInternal, r) <= Derived(d, s, internal, r)
  {
    MoreClassesLowerTheBase(d.dataClasses, e.dataClasses);
    MoreItemsLowerTheCap(Items(s), Items(t), r);
    EscalationsGrow(d, s, internal, e, t, alsoInternal, r);
    ClosedFormIsMonotone(
      BaseTier(d.dataClasses), Cap(Items(s), r), Escalations(d, s, internal, r),
      BaseTier(e.dataClasses), Cap(Items(t), r), Escalations(e, t, alsoInternal, r),
      Derived(d, s, internal, r), Derived(e, t, alsoInternal, r));
  }

  /** Order and repetition do not matter. */
  lemma OnlyTheSetsMatter(d: Declared, s: Surface, e: Declared, t: Surface, internal: bool, r: Rules)
    requires Within(d.dataClasses, e.dataClasses) && Within(e.dataClasses, d.dataClasses)
    requires Within(d.jurisdictions, e.jurisdictions) && Within(e.jurisdictions, d.jurisdictions)
    requires Within(Items(s), Items(t)) && Within(Items(t), Items(s))
    ensures Derived(d, s, internal, r) == Derived(e, t, internal, r)
  {
    assert d.dataClasses != [] ==> d.dataClasses[0] in e.dataClasses;
    assert e.dataClasses != [] ==> e.dataClasses[0] in d.dataClasses;
    MoreIsNeverLessSensitive(d, s, internal, e, t, internal, r);
    MoreIsNeverLessSensitive(e, t, internal, d, s, internal, r);
  }

  /**
   * The one addition that can relax a tier is the first data class, since none at all counts as tier 2:
   * it does so exactly when everything declared is milder than that, no item is at class 2 or below, and the
   * escalations leave room.
   */
  lemma FirstDataClassesCanRelax(d: Declared, added: seq<string>, s: Surface, internal: bool, r: Rules)
    requires d.dataClasses == [] && added != []
    ensures Derived(d, s, internal, r) < Derived(d.(dataClasses := added), s, internal, r) <==>
            (&& (forall c <- added :: DataClassTier(c) > 2)
             && (forall item <- Items(s) :: ClassOf(item, r) > 2)
             && Escalations(d, s, internal, r) < Least(BaseTier(added), Cap(Items(s), r)) - 1)
  {
    var e := d.(dataClasses := added);
    var i :| 0 <= i < |added| && BaseTier(added) == DataClassTier(added[i]);
    assert added[i] in added;
    assert (forall c <- added :: DataClassTier(c) > 2) <==> BaseTier(added) > 2;
    CapAboveTwo(Items(s), r);
    assert Escalations(e, s, internal, r) == Escalations(d, s, internal, r);
  }

  /** An internal party with an empty card is tier 2 with nothing declared, and tier 4 once it declares public data. */
  lemma DeclaringPublicRelaxes(r: Rules)
    ensures var s := Surface(A2aCard, Null);
            && Derived(Declared([], []), s, true, r) == 2
            && Derived(Declared(["public"], []), s, true, r) == 4
  {
    var s := Surface(A2aCard, Null);
    assert Items(s) == [] && Cap(Items(s), r) == 4 && !AnyUnbounded(Items(s));
    assert Lower("public") == "public";
    assert "public"[1] == 'u' && "public" != "phi" && "public" != "pci" && "public" != "pii";
    assert BaseTier(["public"]) == DataClassTier(["public"][0]) == 4;
    assert !Spans([], r.groups);
  }

  lemma CapAboveTwo(items: seq<Item>, r: Rules)
    ensures Cap(items, r) > 2 <==> forall item <- items :: ClassOf(item, r) > 2
  {
    if Cap(items, r) <= 2 {
      var item :| item in items && Cap(items, r) == ClassOf(item, r);
    }
  }

  // ---------------------------------------------------------------------------
  // What a party says about itself
  // ---------------------------------------------------------------------------

  function Stripped(v: Json): Json {
    if v.Object? then Object(v.fields - {"annotations"}) else v
  }

  function WithoutReadOnlyHint(v: Json): Json {
    if v.Object? && "annotations" in v.fields && v.fields["annotations"].Object?
    then Object(v.fields["annotations" := Object(v.fields["annotations"].fields - {"readOnlyHint"})])
    else v
  }

  /** The same surface with every item document rewritten. */
  function Rewritten(s: Surface, f: Json -> Json): Surface {
    match ItemList(s)
    case None => s
    case Some(documents) =>
      var after := Array(seq(|documents|, i requires 0 <= i < |documents| => f(documents[i])));
      if s.kind.A2aCard? then s.(raw := Object(s.raw.fields["skills" := after]))
      else if s.raw.Object? then s.(raw := Object(s.raw.fields["tools" := after]))
      else s.(raw := after)
  }

  lemma RewrittenList(s: Surface, f: Json -> Json)
    requires ItemList(s).Some?
    ensures var documents, after := ItemList(s).value, ItemList(Rewritten(s, f));
            && after.Some?
            && |after.value| == |documents|
            && forall i :: 0 <= i < |documents| ==> after.value[i] == f(documents[i])
  {
  }

  lemma StrippedKeeps(v: Json)
    ensures Get(Stripped(v), "annotations") == None
    ensures Get(Stripped(v), "name") == Get(v, "name") && Get(Stripped(v), "id") == Get(v, "id")
    ensures Get(Stripped(v), "description") == Get(v, "description")
    ensures Get(Stripped(v), "inputSchema") == Get(v, "inputSchema")
  {
    assert "name" != "annotations" && "id" != "annotations";
    assert "description"[0] != "annotations"[0] && "inputSchema"[0] != "annotations"[0];
  }

  lemma WithoutHintKeeps(v: Json)
    ensures var w := WithoutReadOnlyHint(v);
            && Get(w, "name") == Get(v, "name") && Get(w, "id") == Get(v, "id")
            && Get(w, "description") == Get(v, "description")
            && Get(w, "inputSchema") == Get(v, "inputSchema")
            && Destructive(w) == Destructive(v)
            && !ReadOnly(w)
  {
    assert "name" != "annotations" && "id" != "annotations";
    assert "description"[0] != "annotations"[0] && "inputSchema"[0] != "annotations"[0];
    assert "destructiveHint"[0] != "readOnlyHint"[0];
  }

  /** The class, from the facts it rests on. */
  lemma ClassFollows(name: string, a: Json, b: Json, r: Rules)
    requires Get(a, "description") == Get(b, "description")
    requires Destructive(b) ==> Destructive(a)
    ensures CapabilityClass(name, a, r) <= CapabilityClass(name, b, r)
  {
    assert Haystack(name, a) == Haystack(name, b);
  }

  /** Item by item, `b` keeps `a`'s names and shapes, and its classes are no lower. */
  ghost predicate NoLower(a: seq<Item>, b: seq<Item>, r: Rules) {
    && |a| == |b|
    && (forall i :: 0 <= i < |a| ==> IsUnbounded(a[i]) == IsUnbounded(b[i]))
    && (forall i :: 0 <= i < |a| ==> ClassOf(a[i], r) <= ClassOf(b[i], r))
  }

  lemma LeastFollows(a: seq<Item>, b: seq<Item>, r: Rules)
    requires NoLower(a, b, r)
    ensures Cap(a, r) <= Cap(b, r)
  {
    if Cap(b, r) < 4 {
      var item :| item in b && Cap(b, r) == ClassOf(item, r);
      var i :| 0 <= i < |b| && b[i] == item;
      assert a[i] in a;
    }
  }

  /** Item by item unbounded alike, so unbounded alike. */
  lemma UnboundedFollows(a: seq<Item>, b: seq<Item>)
    requires |a| == |b| && forall i :: 0 <= i < |a| ==> IsUnbounded(a[i]) == IsUnbounded(b[i])
    requires AnyUnbounded(a)
    ensures AnyUnbounded(b)
  {
    var item :| item in a && IsUnbounded(item);
    var i :| 0 <= i < |a| && a[i] == item;
    assert IsUnbounded(b[i]) && b[i] in b;
  }

  lemma CapFollows(a: seq<Item>, b: seq<Item>, r: Rules)
    requires NoLower(a, b, r)
    ensures Cap(a, r) <= Cap(b, r)
    ensures AnyUnbounded(a) == AnyUnbounded(b)
  {
    LeastFollows(a, b, r);
    if AnyUnbounded(a) { UnboundedFollows(a, b); }
    if AnyUnbounded(b) { UnboundedFollows(b, a); }
  }

  /** What a rewriting must keep of one document. */
  ghost predicate Faithful(v: Json, w: Json, r: Rules) {
    && NameOf(v) == NameOf(w)
    && Get(v, "inputSchema") == Get(w, "inputSchema")
    && (forall name :: CapabilityClass(name, v, r) <= CapabilityClass(name, w, r))
  }

  lemma {:induction false} NamedFollows(a: seq<Json>, b: seq<Json>, r: Rules)
    requires |a| == |b| && forall i :: 0 <= i < |a| ==> Faithful(a[i], b[i], r)
    ensures NoLower(Named(a), Named(b), r)
    decreases |a|
  {
    if a != [] {
      NamedFollows(a[1..], b[1..], r);
      assert Faithful(a[0], b[0], r);
      HeadFollows(a[0], b[0], Named(a[1..]), Named(b[1..]), r);
    }
  }

  lemma OneMoreItem(x: Item, y: Item, a: seq<Item>, b: seq<Item>, r: Rules)
    requires NoLower(a, b, r) && IsUnbounded(x) == IsUnbounded(y) && ClassOf(x, r) <= ClassOf(y, r)
    ensures NoLower([x] + a, [y] + b, r)
  {
    forall i | 0 <= i < |a| + 1
      ensures IsUnbounded(([x] + a)[i]) == IsUnbounded(([y] + b)[i])
      ensures ClassOf(([x] + a)[i], r) <= ClassOf(([y] + b)[i], r)
    {
      if i > 0 {
        assert ([x] + a)[i] == a[i - 1] && ([y] + b)[i] == b[i - 1];
      }
    }
  }

  lemma SameShape(name: string, v: Json, w: Json)
    requires Get(v, "inputSchema") == Get(w, "inputSchema")
    ensures IsUnbounded(Item(name, v)) == IsUnbounded(Item(name, w))
  {
  }

  lemma HeadFollows(v: Json, w: Json, a: seq<Item>, b: seq<Item>, r: Rules)
    requires Faithful(v, w, r) && NoLower(a, b, r)
    ensures NameOf(v).Some? ==> NoLower([Item(NameOf(v).value, v)] + a, [Item(NameOf(v).value, w)] + b, r)
  {
    if NameOf(v).Some? {
      var name := NameOf(v).value;
      SameShape(name, v, w);
      assert CapabilityClass(name, v, r) <= CapabilityClass(name, w, r);
      OneMoreItem(Item(name, v), Item(name, w), a, b, r);
    }
  }

  /** Rewriting every item faithfully never makes the tier more sensitive. */
  lemma RewritingFollows(d: Declared, s: Surface, f: Json -> Json, internal: bool, r: Rules)
    requires forall v :: Faithful(v, f(v), r)
    ensures Derived(d, s, internal, r) <= Derived(d, Rewritten(s, f), internal, r)
  {
    if ItemList(s).Some? {
      RewrittenList(s, f);
      NamedFollows(ItemList(s).value, ItemList(Rewritten(s, f)).value, r);
      CapFollows(Items(s), Items(Rewritten(s, f)), r);
    }
  }

  /** A party's annotations can only make it look more sensitive, over any surface. */
  lemma AnnotationsNeverRelax(d: Declared, s: Surface, internal: bool, r: Rules)
    ensures Derived(d, s, internal, r) <= Derived(d, Rewritten(s, Stripped), internal, r)
  {
    forall v ensures Faithful(v, Stripped(v), r) {
      StrippedKeeps(v);
      forall name ensures CapabilityClass(name, v, r) <= CapabilityClass(name, Stripped(v), r) {
        ClassFollows(name, v, Stripped(v), r);
      }
    }
    RewritingFollows(d, s, Stripped, internal, r);
  }

  /** Two documents that count as the same. */
  ghost predicate Alike(v: Json, w: Json, r: Rules) {
    Faithful(v, w, r) && Faithful(w, v, r)
  }

  lemma RewritingAlikeChangesNothing(d: Declared, s: Surface, f: Json -> Json, internal: bool, r: Rules)
    requires forall v :: Alike(v, f(v), r)
    ensures Derived(d, s, internal, r) == Derived(d, Rewritten(s, f), internal, r)
  {
    assert forall v :: Faithful(v, f(v), r) by {
      forall v ensures Faithful(v, f(v), r) { assert Alike(v, f(v), r); }
    }
    RewritingFollows(d, s, f, internal, r);
    if ItemList(s).Some? {
      RewrittenList(s, f);
      var a, b := ItemList(s).value, ItemList(Rewritten(s, f)).value;
      forall i | 0 <= i < |a| ensures Faithful(b[i], a[i], r) { assert Alike(a[i], f(a[i]), r); }
      NamedFollows(b, a, r);
      CapFollows(Items(Rewritten(s, f)), Items(s), r);
    }
  }

  /** Claiming to be read-only changes nothing, over any surface. */
  lemma ReadOnlyHintChangesNothing(d: Declared, s: Surface, internal: bool, r: Rules)
    ensures Derived(d, s, internal, r) == Derived(d, Rewritten(s, WithoutReadOnlyHint), internal, r)
  {
    forall v ensures Alike(v, WithoutReadOnlyHint(v), r) {
      var w := WithoutReadOnlyHint(v);
      WithoutHintKeeps(v);
      forall name ensures CapabilityClass(name, v, r) == CapabilityClass(name, w, r) {
        ClassFollows(name, v, w, r);
        ClassFollows(name, w, v, r);
      }
    }
    RewritingAlikeChangesNothing(d, s, WithoutReadOnlyHint, internal, r);
  }
}
