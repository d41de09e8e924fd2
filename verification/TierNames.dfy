/** How a capability's class moves as its name grows. */
module TierNames {
  import opened Text
  import opened Tier

  // The keyword lists, in the order they are searched.

  const MOVING: seq<string> := ["transfer", "wire", "payment", "pay", "refund", "withdraw", "settle"]
  const BREAKING: seq<string> := ["delete", "drop", "destroy", "terminate", "truncate", "revoke"]
  const GRANTING: seq<string> := ["grant", "iam", "role", "permission", "policy"]
  const RUNNING: seq<string> := ["exec", "eval", "shell", "command", "deploy", "provision", "rotate_key", "credential"]
  const FIRST := MOVING + BREAKING + GRANTING + RUNNING

  const SENDING: seq<string> := ["send", "email", "sms", "post", "publish", "upload", "export", "share"]
  const WRITING: seq<string> := ["write", "create", "update", "insert", "patch", "put"]
  const TELLING: seq<string> := ["notify", "webhook", "invite", "comment", "message"]
  const SECOND := SENDING + WRITING + TELLING

  const THIRD: seq<string> := [
    "read", "get", "list", "fetch", "query", "search", "describe", "lookup", "balance", "history"]

  const GROUPS: Groups := [
    ["AT", "BE", "BG", "HR", "CY", "CZ", "DK", "EE", "FI", "FR", "DE", "GR", "HU", "IE", "IT",
     "LV", "LT", "LU", "MT", "NL", "PL", "PT", "RO", "SK", "SI", "ES", "SE", "IS", "LI", "NO"],
    ["GB"], ["US", "CA"], ["AU", "NZ"], ["SG", "MY", "HK", "JP", "KR", "TW"], ["IN"], ["CN"],
    ["AE", "SA", "QA"], ["BR", "MX", "AR"], ["ZA", "NG", "KE"]]

  /** The rules in force. */
  const DEFAULT := Rules(FIRST, SECOND, THIRD, GROUPS)

  lemma MentionsExtends(before: string, s: string, after: string, keywords: seq<string>)
    requires Mentions(s, keywords)
    ensures Mentions(before + s + after, keywords)
  {
    var k :| k in keywords && HasSub(s, k);
    ExtensionKeepsSubstrings(before, s, after, k);
  }

  lemma LowerJoins(before: string, name: string, after: string)
    ensures Lower(before + name + after) == Lower(before) + Lower(name) + Lower(after)
  {
  }

  /** A name that already matches keeps at least that class however it is extended. */
  lemma ExtendingAMatchNeverRelaxes(before: string, name: string, after: string, item: Json, r: Rules)
    requires NameClass(name, r).Some?
    ensures CapabilityClass(before + name + after, item, r) <= CapabilityClass(name, item, r)
  {
    NameClassExtends(before, name, after, r);
  }

  lemma NameClassExtends(before: string, name: string, after: string, r: Rules)
    requires NameClass(name, r).Some?
    ensures NameClass(before + name + after, r).Some?
    ensures NameClass(before + name + after, r).value <= NameClass(name, r).value
  {
    LowerJoins(before, name, after);
    if Mentions(Lower(name), r.first) {
      MentionsExtends(Lower(before), Lower(name), Lower(after), r.first);
    } else if Mentions(Lower(name), r.second) {
      MentionsExtends(Lower(before), Lower(name), Lower(after), r.second);
    } else {
      MentionsExtends(Lower(before), Lower(name), Lower(after), r.third);
    }
  }

  /** No keyword of the most sensitive class has a space in it. */
  predicate OneWordEach(r: Rules) {
    forall k <- r.first :: ' ' !in k
  }

  /** A keyword found in a text holds every letter it covers. */
  lemma CoversItsLetters(s: string, k: string, i: nat, p: nat)
    requires HasAt(s, k, i) && i <= p < i + |k|
    ensures s[p] in k
  {
    assert k[p - i] == s[i..i + |k|][p - i];
  }

  lemma AfterTheSpace(a: string, b: string, k: string, i: nat)
    requires HasAt(a + " " + b, k, i) && i > |a|
    ensures HasSub(b, k)
  {
    var s, j := a + " " + b, i - |a| - 1;
    assert s[|a| + 1..] == b;
    assert s[i..i + |k|] == s[|a| + 1..][j..j + |k|];
    assert HasAt(b, k, j);
  }

  lemma SpaceParts(a: string, b: string, k: string)
    requires ' ' !in k && HasSub(a + " " + b, k)
    ensures HasSub(a, k) || HasSub(b, k)
  {
    var s := a + " " + b;
    var i :| 0 <= i <= |s| && HasAt(s, k, i);
    if i + |k| <= |a| {
      assert a[i..i + |k|] == s[i..i + |k|];
      assert HasAt(a, k, i);
    } else if i > |a| {
      AfterTheSpace(a, b, k, i);
    } else {
      CoversItsLetters(s, k, i, |a|);
    }
  }

  /** The description is alarming by itself. */
  predicate Alarming(item: Json, r: Rules) {
    Mentions(Lower(TextOf(Get(item, "description"))), r.first)
  }

  lemma HaystackParts(name: string, item: Json, r: Rules)
    requires OneWordEach(r)
    ensures Mentions(Haystack(name, item), r.first) <==> Mentions(Lower(name), r.first) || Alarming(item, r)
  {
    var n, d := Lower(name), Lower(TextOf(Get(item, "description")));
    assert n + " " + d == "" + n + (" " + d) == (n + " ") + d + "";
    if Mentions(n + " " + d, r.first) {
      var k :| k in r.first && HasSub(n + " " + d, k);
      SpaceParts(n, d, k);
    }
    if Mentions(n, r.first) {
      MentionsExtends("", n, " " + d, r.first);
    }
    if Mentions(d, r.first) {
      MentionsExtends(n + " ", d, "", r.first);
    }
  }

  /** The class without reference to the haystack. */
  lemma ClassIs(name: string, item: Json, r: Rules)
    requires OneWordEach(r)
    ensures CapabilityClass(name, item, r) ==
            if Destructive(item) then 1
            else if NameClass(name, r).Some? then NameClass(name, r).value
            else if Alarming(item, r) then 1
            else 2
  {
    HaystackParts(name, item, r);
  }

  /** Extending a name relaxes its class exactly when it matched nothing and now matches milder than it was classed. */
  lemma ExtendingRelaxesExactlyWhen(before: string, name: string, after: string, item: Json, r: Rules)
    requires OneWordEach(r)
    ensures CapabilityClass(name, item, r) < CapabilityClass(before + name + after, item, r) <==>
            (&& !Destructive(item)
             && NameClass(name, r).None?
             && NameClass(before + name + after, r).Some?
             && NameClass(before + name + after, r).value > if Alarming(item, r) then 1 else 2)
  {
    ClassIs(name, item, r);
    ClassIs(before + name + after, item, r);
    if NameClass(name, r).Some? {
      NameClassExtends(before, name, after, r);
    }
  }

  /** A keyword of the rules in force: one word, at least three letters, not "get". */
  predicate Ordinary(k: string) {
    ' ' !in k && (|k| > 3 || (|k| == 3 && k[0] != 'g'))
  }

  predicate AllOrdinary(keywords: seq<string>) {
    forall k <- keywords :: Ordinary(k)
  }

  lemma MovingIsOrdinary()
    ensures AllOrdinary(MOVING)
  {
  }

  lemma BreakingIsOrdinary()
    ensures AllOrdinary(BREAKING)
  {
  }

  lemma GrantingIsOrdinary()
    ensures AllOrdinary(GRANTING)
  {
  }

  lemma RunningIsOrdinary()
    ensures AllOrdinary(RUNNING)
  {
  }

  lemma FirstAreOrdinary()
    ensures AllOrdinary(FIRST)
  {
    MovingIsOrdinary();
    BreakingIsOrdinary();
    GrantingIsOrdinary();
    RunningIsOrdinary();
  }

  lemma SendingIsOrdinary()
    ensures AllOrdinary(SENDING)
  {
  }

  lemma WritingIsOrdinary()
    ensures AllOrdinary(WRITING)
  {
  }

  lemma TellingIsOrdinary()
    ensures AllOrdinary(TELLING)
  {
  }

  lemma SecondAreOrdinary()
    ensures AllOrdinary(SECOND)
  {
    SendingIsOrdinary();
    WritingIsOrdinary();
    TellingIsOrdinary();
  }

  lemma DefaultKeywordsAreWords()
    ensures OneWordEach(DEFAULT)
  {
    FirstAreOrdinary();
  }

  lemma WholeOfShortText(text: string, k: string)
    requires |text| <= 3 <= |k| && HasSub(text, k)
    ensures k == text
  {
    var i :| 0 <= i <= |text| && HasAt(text, k, i);
    assert i == 0 && text[0..|k|] == text;
  }

  lemma NotInShortText(text: string, keywords: seq<string>)
    requires AllOrdinary(keywords) && (|text| < 3 || text == "get")
    ensures !Mentions(text, keywords)
  {
    forall k <- keywords ensures !HasSub(text, k) {
      assert Ordinary(k) && k != text;
      if HasSub(text, k) {
        WholeOfShortText(text, k);
      }
    }
  }

  lemma NotInTwoLetters(text: string)
    requires |text| == 2
    ensures !Mentions(text, THIRD)
  {
    assert forall k <- THIRD :: |k| >= 3;
  }

  lemma GetIsMentioned()
    ensures Mentions("get", THIRD)
  {
    assert THIRD[1] == "get" && HasAt("get", "get", 0);
    assert HasSub("get", THIRD[1]) && THIRD[1] in THIRD;
  }

  /** With the rules in force, "ge" says nothing and is class 2; one letter more makes it class 3. */
  lemma OneLetterRelaxes()
    ensures CapabilityClass("ge", Object(map[]), DEFAULT) == 2
    ensures CapabilityClass("ge" + "t", Object(map[]), DEFAULT) == 3
  {
    var item := Object(map[]);
    assert Lower("ge") == "ge" && "ge" + "t" == "get" && Lower("get") == "get";
    DefaultKeywordsAreWords();
    FirstAreOrdinary();
    SecondAreOrdinary();
    NotInShortText("ge", FIRST);
    NotInShortText("ge", SECOND);
    NotInTwoLetters("ge");
    NotInShortText("get", FIRST);
    NotInShortText("get", SECOND);
    GetIsMentioned();
    assert Lower(TextOf(Get(item, "description"))) == "";
    NotInShortText("", FIRST);
    ClassIs("ge", item, DEFAULT);
    ClassIs("get", item, DEFAULT);
  }
}
