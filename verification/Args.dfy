/** The command line: parsing, the normal form it can be printed in, and comma lists. */
module Args {
  import opened Wrappers

  datatype Args = Args(verbs: seq<string>, flags: map<string, seq<string>>, positional: seq<string>)

  const EMPTY := Args([], map[], [])

  predicate IsFlag(token: string) {
    |token| >= 2 && token[0] == '-' && token[1] == '-'
  }

  /** Where the first '=' is, or the length. */
  function FindEq(s: string): (i: nat)
    ensures i <= |s|
    ensures forall k :: 0 <= k < i ==> s[k] != '='
    ensures i < |s| ==> s[i] == '='
  {
    if s == "" || s[0] == '=' then 0 else 1 + FindEq(s[1..])
  }

  function Push(a: Args, key: string, value: string): Args {
    a.(flags := a.flags[key := (if key in a.flags then a.flags[key] else []) + [value]])
  }

  /** The key of a flag token, and its value when that is inline. */
  function Key(token: string): string
    requires IsFlag(token)
  {
    token[2..][..FindEq(token[2..])]
  }

  function Inline(token: string): Option<string>
    requires IsFlag(token)
  {
    var rest := token[2..];
    if FindEq(rest) < |rest| then Some(rest[FindEq(rest) + 1..]) else None
  }

  /** What the rest of the tokens adds to what was parsed so far. */
  function ParseRest(tokens: seq<string>, seenFlag: bool, a: Args): Args {
    if tokens == [] then a
    else
      var token, rest := tokens[0], tokens[1..];
      if IsFlag(token) then
        match Inline(token)
        case Some(v) => ParseRest(rest, true, Push(a, Key(token), v))
        case None =>
          if rest != [] && !IsFlag(rest[0]) then ParseRest(rest[1..], true, Push(a, Key(token), rest[0]))
          else ParseRest(rest, true, Push(a, Key(token), "true"))
      else if seenFlag then ParseRest(rest, seenFlag, a.(positional := a.positional + [token]))
      else ParseRest(rest, seenFlag, a.(verbs := a.verbs + [token]))
  }

  function Parsed(tokens: seq<string>): Args {
    ParseRest(tokens, false, EMPTY)
  }

  method Parse(tokens: seq<string>) returns (out: Args)
    ensures out == Parsed(tokens)
  {
    out := EMPTY;
    var i := 0;
    var seenFlag := false;
    while i < |tokens|
      invariant i <= |tokens|
      invariant ParseRest(tokens[i..], seenFlag, out) == Parsed(tokens)
    {
      var token := tokens[i];
      assert tokens[i..][0] == token && tokens[i..][1..] == tokens[i + 1..];
      i := i + 1;
      if IsFlag(token) {
        seenFlag := true;
        var value;
        match Inline(token) {
          case Some(v) => value := v;
          case None =>
            if i < |tokens| && !IsFlag(tokens[i]) {
              value := tokens[i];
              assert tokens[i..][0] == value && tokens[i..][1..] == tokens[i + 1..];
              i := i + 1;
            } else {
              value := "true";
            }
        }
        out := Push(out, Key(token), value);
      } else if seenFlag {
        out := out.(positional := out.positional + [token]);
      } else {
        out := out.(verbs := out.verbs + [token]);
      }
    }
  }

  // ---------------------------------------------------------------------------
  // The normal form
  // ---------------------------------------------------------------------------

  function FlagToken(key: string, value: string): string {
    "--" + key + "=" + value
  }

  function PrintValues(key: string, values: seq<string>): seq<string> {
    if values == [] then [] else [FlagToken(key, values[0])] + PrintValues(key, values[1..])
  }

  function PrintFlags(keys: seq<string>, flags: map<string, seq<string>>): seq<string>
    requires forall k <- keys :: k in flags
  {
    if keys == [] then [] else PrintValues(keys[0], flags[keys[0]]) + PrintFlags(keys[1..], flags)
  }

  /** Every key once. */
  ghost predicate Enumerates(keys: seq<string>, flags: map<string, seq<string>>) {
    && (forall k :: k in keys <==> k in flags)
    && (forall i, j :: 0 <= i < j < |keys| ==> keys[i] != keys[j])
  }

  /** Verbs, then `--key=value` for every value, then positionals. */
  function Print(a: Args, keys: seq<string>): seq<string>
    requires forall k <- keys :: k in a.flags
  {
    a.verbs + PrintFlags(keys, a.flags) + a.positional
  }

  /** What parsing leaves behind. */
  ghost predicate Regular(a: Args) {
    && (forall v <- a.verbs :: !("--" <= v))
    && (forall p <- a.positional :: !("--" <= p))
    && (forall k <- a.flags :: '=' !in k && a.flags[k] != [])
    && (a.flags == map[] ==> a.positional == [])
  }

  lemma PushIsRegular(a: Args, key: string, value: string)
    requires Regular(a) && '=' !in key
    ensures Regular(Push(a, key, value)) && Push(a, key, value).flags != map[]
  {
    assert key in Push(a, key, value).flags;
  }

  lemma KeyHasNoEq(token: string)
    requires IsFlag(token)
    ensures '=' !in Key(token)
  {
  }

  lemma {:induction false} ParseIsRegular(tokens: seq<string>, seenFlag: bool, a: Args)
    requires Regular(a) && (seenFlag <==> a.flags != map[])
    ensures Regular(ParseRest(tokens, seenFlag, a))
    decreases |tokens|
  {
    if tokens != [] {
      var token, rest := tokens[0], tokens[1..];
      if IsFlag(token) {
        KeyHasNoEq(token);
        match Inline(token) {
          case Some(v) =>
            PushIsRegular(a, Key(token), v);
            ParseIsRegular(rest, true, Push(a, Key(token), v));
          case None =>
            if rest != [] && !IsFlag(rest[0]) {
              PushIsRegular(a, Key(token), rest[0]);
              ParseIsRegular(rest[1..], true, Push(a, Key(token), rest[0]));
            } else {
              PushIsRegular(a, Key(token), "true");
              ParseIsRegular(rest, true, Push(a, Key(token), "true"));
            }
        }
      } else if seenFlag {
        ParseIsRegular(rest, seenFlag, a.(positional := a.positional + [token]));
      } else {
        ParseIsRegular(rest, seenFlag, a.(verbs := a.verbs + [token]));
      }
    }
  }

  lemma {:induction false} VerbsParse(vs: seq<string>, rest: seq<string>, a: Args)
    requires forall v <- vs :: !IsFlag(v)
    ensures ParseRest(vs + rest, false, a) == ParseRest(rest, false, a.(verbs := a.verbs + vs))
    decreases |vs|
  {
    if vs == [] {
      assert vs + rest == rest && a.verbs + [] == a.verbs;
    } else {
      assert (vs + rest)[0] == vs[0] && (vs + rest)[1..] == vs[1..] + rest && vs[0] in vs;
      VerbsParse(vs[1..], rest, a.(verbs := a.verbs + [vs[0]]));
      assert a.verbs + [vs[0]] + vs[1..] == a.verbs + vs;
    }
  }

  lemma {:induction false} PositionalsParse(ps: seq<string>, a: Args)
    requires forall p <- ps :: !IsFlag(p)
    ensures ParseRest(ps, true, a) == a.(positional := a.positional + ps)
    decreases |ps|
  {
    if ps == [] {
      assert a.positional + [] == a.positional;
    } else {
      assert ps[0] in ps;
      PositionalsParse(ps[1..], a.(positional := a.positional + [ps[0]]));
      assert a.positional + [ps[0]] + ps[1..] == a.positional + ps;
    }
  }

  lemma TokenParses(key: string, value: string)
    requires '=' !in key
    ensures IsFlag(FlagToken(key, value))
    ensures Key(FlagToken(key, value)) == key && Inline(FlagToken(key, value)) == Some(value)
  {
    var token := FlagToken(key, value);
    var rest := token[2..];
    assert rest == key + "=" + value;
    assert rest[|key|] == '=';
    assert forall k :: 0 <= k < |key| ==> rest[k] == key[k];
    assert FindEq(rest) == |key|;
  }

  function PushAll(a: Args, key: string, values: seq<string>): Args
    decreases |values|
  {
    if values == [] then a else PushAll(Push(a, key, values[0]), key, values[1..])
  }

  lemma {:induction false} ValuesParse(key: string, values: seq<string>, rest: seq<string>, seenFlag: bool, a: Args)
    requires '=' !in key
    ensures ParseRest(PrintValues(key, values) + rest, seenFlag, a)
            == ParseRest(rest, seenFlag || values != [], PushAll(a, key, values))
    decreases |values|
  {
    var printed := PrintValues(key, values);
    if values == [] {
      assert printed + rest == rest;
    } else {
      TokenParses(key, values[0]);
      var tail := PrintValues(key, values[1..]) + rest;
      assert (printed + rest)[0] == FlagToken(key, values[0]) && (printed + rest)[1..] == tail;
      ValuesParse(key, values[1..], rest, true, Push(a, key, values[0]));
    }
  }

  lemma {:induction false} PushAllAdds(a: Args, key: string, values: seq<string>)
    requires values != []
    ensures PushAll(a, key, values)
            == a.(flags := a.flags[key := (if key in a.flags then a.flags[key] else []) + values])
    decreases |values|
  {
    var was := if key in a.flags then a.flags[key] else [];
    var b := Push(a, key, values[0]);
    if |values| == 1 {
      assert values == [values[0]];
    } else {
      PushAllAdds(b, key, values[1..]);
      assert was + [values[0]] + values[1..] == was + values;
      assert b.flags[key := was + values] == a.flags[key := was + values];
    }
  }

  /** `keys`, with the values they have in `flags`, put into `a`. */
  function PutAll(a: Args, keys: seq<string>, flags: map<string, seq<string>>): Args
    requires forall k <- keys :: k in flags
    decreases |keys|
  {
    if keys == [] then a
    else PutAll(a.(flags := a.flags[keys[0] := flags[keys[0]]]), keys[1..], flags)
  }

  ghost predicate Printable(keys: seq<string>, flags: map<string, seq<string>>, a: Args) {
    && (forall k <- keys :: k in flags && '=' !in k && flags[k] != [] && k !in a.flags)
    && (forall i, j :: 0 <= i < j < |keys| ==> keys[i] != keys[j])
  }

  lemma PrintableRest(keys: seq<string>, flags: map<string, seq<string>>, a: Args, b: Args)
    requires keys != [] && Printable(keys, flags, a)
    requires b.flags.Keys == a.flags.Keys + {keys[0]}
    ensures Printable(keys[1..], flags, b)
  {
    forall k <- keys[1..] ensures k in flags && '=' !in k && flags[k] != [] && k !in b.flags {
      var i :| 0 <= i < |keys| - 1 && keys[1..][i] == k;
      assert keys[i + 1] == k && k in keys;
    }
  }

  lemma FirstKeyParses(keys: seq<string>, flags: map<string, seq<string>>, rest: seq<string>, seenFlag: bool,
                       a: Args, b: Args)
    requires keys != [] && Printable(keys, flags, a)
    requires b == a.(flags := a.flags[keys[0] := flags[keys[0]]])
    ensures ParseRest(PrintFlags(keys, flags) + rest, seenFlag, a)
            == ParseRest(PrintFlags(keys[1..], flags) + rest, true, b)
  {
    var key := keys[0];
    assert key in keys;
    var values, tail := flags[key], PrintFlags(keys[1..], flags) + rest;
    assert PrintFlags(keys, flags) + rest == PrintValues(key, values) + tail;
    ValuesParse(key, values, tail, seenFlag, a);
    PushAllAdds(a, key, values);
    assert [] + values == values;
  }

  lemma {:induction false} FlagsParse(keys: seq<string>, flags: map<string, seq<string>>, rest: seq<string>,
                                      seenFlag: bool, a: Args)
    requires Printable(keys, flags, a)
    ensures ParseRest(PrintFlags(keys, flags) + rest, seenFlag, a)
            == ParseRest(rest, seenFlag || keys != [], PutAll(a, keys, flags))
    decreases |keys|
  {
    if keys == [] {
      assert PrintFlags(keys, flags) + rest == rest;
    } else {
      var b := a.(flags := a.flags[keys[0] := flags[keys[0]]]);
      FirstKeyParses(keys, flags, rest, seenFlag, a, b);
      PrintableRest(keys, flags, a, b);
      FlagsParse(keys[1..], flags, rest, true, b);
    }
  }

  lemma {:induction false} PutAllGives(a: Args, keys: seq<string>, flags: map<string, seq<string>>)
    requires forall k <- keys :: k in flags
    ensures PutAll(a, keys, flags).verbs == a.verbs && PutAll(a, keys, flags).positional == a.positional
    ensures forall k :: k in PutAll(a, keys, flags).flags <==> k in a.flags || k in keys
    ensures forall k :: k in keys ==> PutAll(a, keys, flags).flags[k] == flags[k]
    ensures forall k :: k in a.flags && k !in keys ==> PutAll(a, keys, flags).flags[k] == a.flags[k]
    decreases |keys|
  {
    if keys != [] {
      PutAllGives(a.(flags := a.flags[keys[0] := flags[keys[0]]]), keys[1..], flags);
      assert forall k :: k in keys <==> k == keys[0] || k in keys[1..];
    }
  }

  /** For every token list and key order: what was parsed, printed in normal form and parsed again, is itself. */
  lemma NormalFormRoundTrips(tokens: seq<string>, keys: seq<string>)
    requires Enumerates(keys, Parsed(tokens).flags)
    ensures Parsed(Print(Parsed(tokens), keys)) == Parsed(tokens)
  {
    var a := Parsed(tokens);
    ParseIsRegular(tokens, false, EMPTY);
    var b := EMPTY.(verbs := EMPTY.verbs + a.verbs);
    assert Print(a, keys) == a.verbs + (PrintFlags(keys, a.flags) + a.positional);
    VerbsParse(a.verbs, PrintFlags(keys, a.flags) + a.positional, EMPTY);
    FlagsParse(keys, a.flags, a.positional, false, b);
    var c := PutAll(b, keys, a.flags);
    PutAllGives(b, keys, a.flags);
    assert c.flags == a.flags;
    if keys == [] {
      assert a.flags == map[];
    } else {
      PositionalsParse(a.positional, c);
    }
  }

  /** A key alone, as it is typed before a separate value. */
  function BareToken(key: string): string {
    "--" + key
  }

  lemma BareTokenParses(key: string)
    requires '=' !in key
    ensures IsFlag(BareToken(key)) && Key(BareToken(key)) == key && Inline(BareToken(key)) == None
  {
    var rest := BareToken(key)[2..];
    assert rest == key;
    assert FindEq(rest) == |rest|;
  }

  /** A replacement that starts with a flag either way is taken up alike after any tokens. */
  lemma {:induction false} AfterAnything(before: seq<string>, x: seq<string>, y: seq<string>, seenFlag: bool, a: Args)
    requires x != [] && y != [] && IsFlag(x[0]) && IsFlag(y[0])
    requires forall seen, b :: ParseRest(x, seen, b) == ParseRest(y, seen, b)
    ensures ParseRest(before + x, seenFlag, a) == ParseRest(before + y, seenFlag, a)
    decreases |before|
  {
    if before == [] {
      assert before + x == x && before + y == y;
    } else {
      var token, rest := before[0], before[1..];
      assert (before + x)[0] == token && (before + x)[1..] == rest + x;
      assert (before + y)[0] == token && (before + y)[1..] == rest + y;
      if IsFlag(token) {
        match Inline(token) {
          case Some(v) => AfterAnything(rest, x, y, true, Push(a, Key(token), v));
          case None =>
            AfterAnything(rest, x, y, true, Push(a, Key(token), "true"));
            if rest != [] {
              assert (rest + x)[1..] == rest[1..] + x && (rest + y)[1..] == rest[1..] + y;
              AfterAnything(rest[1..], x, y, true, Push(a, Key(token), rest[0]));
            }
        }
      } else {
        var taken :=
          if seenFlag then a.(positional := a.positional + [token]) else a.(verbs := a.verbs + [token]);
        AfterAnything(rest, x, y, seenFlag, taken);
      }
    }
  }

  lemma FlagsStartWithDashes(token: string)
    ensures IsFlag(token) <==> "--" <= token
  {
    if IsFlag(token) { assert token[..2] == "--"; }
  }

  /** Tokens that do not start with two dashes are verbs, as they stand. */
  lemma {:induction false} PlainTokensAreVerbs(tokens: seq<string>, verbs: seq<string>)
    requires forall t <- tokens :: !("--" <= t)
    ensures ParseRest(tokens, false, Args(verbs, map[], [])) == Args(verbs + tokens, map[], [])
    decreases |tokens|
  {
    if tokens == [] {
      assert verbs + tokens == verbs;
    } else {
      FlagsStartWithDashes(tokens[0]);
      assert tokens[0] in tokens && forall t <- tokens[1..] :: t in tokens;
      PlainTokensAreVerbs(tokens[1..], verbs + [tokens[0]]);
      assert verbs + [tokens[0]] + tokens[1..] == verbs + tokens;
    }
  }

  /** `--key value` anywhere on a command line is `--key=value`, for any value that does not look like a flag. */
  lemma SeparateValueIsInlineValue(before: seq<string>, key: string, value: string, after: seq<string>)
    requires '=' !in key && !IsFlag(value)
    ensures Parsed(before + ([BareToken(key), value] + after)) == Parsed(before + ([FlagToken(key, value)] + after))
  {
    var x, y := [BareToken(key), value] + after, [FlagToken(key, value)] + after;
    BareTokenParses(key);
    TokenParses(key, value);
    assert x[0] == BareToken(key) && x[1..] == [value] + after && ([value] + after)[1..] == after && y[1..] == after;
    AfterAnything(before, x, y, false, EMPTY);
  }

  /** `--key` at the end, or before another flag, is `--key=true`. */
  lemma MissingValueIsTrue(before: seq<string>, key: string, after: seq<string>)
    requires '=' !in key && (after == [] || IsFlag(after[0]))
    ensures Parsed(before + ([BareToken(key)] + after)) == Parsed(before + ([FlagToken(key, "true")] + after))
  {
    var x, y := [BareToken(key)] + after, [FlagToken(key, "true")] + after;
    BareTokenParses(key);
    TokenParses(key, "true");
    assert x[0] == BareToken(key) && x[1..] == after && y[1..] == after;
    AfterAnything(before, x, y, false, EMPTY);
  }

  // ---------------------------------------------------------------------------
  // Lists
  // ---------------------------------------------------------------------------

  function Split(s: string): (pieces: seq<string>)
    ensures pieces != []
  {
    if s == "" then [""]
    else if s[0] == ',' then [""] + Split(s[1..])
    else Widened(s[0], Split(s[1..]))
  }

  /** The first piece, one character longer. */
  function Widened(c: char, pieces: seq<string>): (wider: seq<string>)
    requires pieces != []
    ensures wider != []
  {
    [[c] + pieces[0]] + pieces[1..]
  }

  lemma WidenedJoins(c: char, a: seq<string>, b: seq<string>)
    requires a != []
    ensures Widened(c, a + b) == Widened(c, a) + b
  {
    assert (a + b)[0] == a[0] && (a + b)[1..] == a[1..] + b;
  }

  predicate IsSpace(c: char) {
    var n := c as int;
    || 9 <= n <= 13 || n == 32 || n == 0x85 || n == 0xa0 || n == 0x1680
    || 0x2000 <= n <= 0x200a || n == 0x2028 || n == 0x2029 || n == 0x202f || n == 0x205f || n == 0x3000
  }

  /** Unicode's White_Space, one by one. */
  const WHITE_SPACE := {
    0x09, 0x0a, 0x0b, 0x0c, 0x0d, 0x20, 0x85, 0xa0, 0x1680, 0x2000, 0x2001, 0x2002, 0x2003, 0x2004, 0x2005, 0x2006,
    0x2007, 0x2008, 0x2009, 0x200a, 0x2028, 0x2029, 0x202f, 0x205f, 0x3000
  }

  lemma SpacesAreUnicodes(c: char)
    ensures IsSpace(c) <==> c as int in WHITE_SPACE
  {
  }

  function Trim(s: string): string {
    if s != "" && IsSpace(s[0]) then Trim(s[1..])
    else if s != "" && IsSpace(s[|s| - 1]) then Trim(s[..|s| - 1])
    else s
  }

  /** Trimmed pieces, empty ones dropped. */
  function Clean(pieces: seq<string>): seq<string> {
    if pieces == [] then []
    else (if Trim(pieces[0]) == "" then [] else [Trim(pieces[0])]) + Clean(pieces[1..])
  }

  function ListOf(values: seq<string>): seq<string> {
    if values == [] then [] else Clean(Split(values[0])) + ListOf(values[1..])
  }

  function Join(values: seq<string>): string {
    if values == [] then "" else if |values| == 1 then values[0] else values[0] + "," + Join(values[1..])
  }

  lemma {:induction false} SplitJoins(a: string, b: string)
    ensures Split(a + "," + b) == Split(a) + Split(b)
    decreases |a|
  {
    var s := a + "," + b;
    if a == "" {
      assert s[0] == ',' && s[1..] == b;
    } else {
      assert s[0] == a[0] && s[1..] == a[1..] + "," + b;
      SplitJoins(a[1..], b);
      if a[0] == ',' {
        assert [""] + (Split(a[1..]) + Split(b)) == [""] + Split(a[1..]) + Split(b);
      } else {
        WidenedJoins(a[0], Split(a[1..]), Split(b));
      }
    }
  }

  lemma {:induction false} CleanJoins(a: seq<string>, b: seq<string>)
    ensures Clean(a + b) == Clean(a) + Clean(b)
    decreases |a|
  {
    if a == [] {
      assert a + b == b;
    } else {
      assert (a + b)[0] == a[0] && (a + b)[1..] == a[1..] + b;
      CleanJoins(a[1..], b);
    }
  }

  /** Repeating a flag and joining its values with commas ask for the same list. */
  lemma {:induction false} RepeatedOrJoinedIsTheSame(values: seq<string>)
    ensures ListOf([Join(values)]) == ListOf(values)
    decreases |values|
  {
    assert ListOf([Join(values)]) == Clean(Split(Join(values))) + ListOf([]);
    assert Clean(Split(Join(values))) + [] == Clean(Split(Join(values)));
    if values == [] {
      assert Clean([""]) == Clean([""][1..]);
    } else if |values| == 1 {
      assert values == [values[0]];
    } else {
      var rest := values[1..];
      RepeatedOrJoinedIsTheSame(rest);
      assert ListOf([Join(rest)]) == Clean(Split(Join(rest))) + ListOf([]);
      SplitJoins(values[0], Join(rest));
      CleanJoins(Split(values[0]), Split(Join(rest)));
    }
  }

  predicate Blank(s: string) {
    forall c <- s :: IsSpace(c)
  }

  /** `t` is `s` without some white space at its ends. */
  ghost predicate Within(t: string, s: string) {
    exists before, after :: Blank(before) && Blank(after) && s == before + t + after
  }

  lemma OneMoreInFront(t: string, s: string)
    requires s != "" && IsSpace(s[0]) && Within(t, s[1..])
    ensures Within(t, s)
  {
    var before, after :| Blank(before) && Blank(after) && s[1..] == before + t + after;
    assert s == ([s[0]] + before) + t + after && Blank([s[0]] + before);
  }

  lemma OneMoreBehind(t: string, s: string)
    requires s != "" && IsSpace(s[|s| - 1]) && Within(t, s[..|s| - 1])
    ensures Within(t, s)
  {
    var before, after :| Blank(before) && Blank(after) && s[..|s| - 1] == before + t + after;
    var longer := after + [s[|s| - 1]];
    assert s == before + t + longer && Blank(longer);
  }

  /** Trimming takes white space off both ends and nothing else. */
  lemma {:induction false} TrimIs(s: string)
    ensures Within(Trim(s), s)
    ensures Trim(s) != "" ==> !IsSpace(Trim(s)[0]) && !IsSpace(Trim(s)[|Trim(s)| - 1])
    decreases |s|
  {
    if s != "" && IsSpace(s[0]) {
      TrimIs(s[1..]);
      OneMoreInFront(Trim(s), s);
    } else if s != "" && IsSpace(s[|s| - 1]) {
      TrimIs(s[..|s| - 1]);
      OneMoreBehind(Trim(s), s);
    } else {
      assert Blank("") && s == "" + s + "";
    }
  }

  predicate CommaFree(pieces: seq<string>) {
    forall piece <- pieces :: ',' !in piece
  }

  lemma JoinedInFront(pieces: seq<string>)
    requires pieces != []
    ensures Join([""] + pieces) == "," + Join(pieces)
  {
    assert ([""] + pieces)[1..] == pieces && "" + "," == ",";
  }

  lemma JoinedWidened(c: char, pieces: seq<string>)
    requires pieces != []
    ensures Join(Widened(c, pieces)) == [c] + Join(pieces)
    ensures c != ',' && CommaFree(pieces) ==> CommaFree(Widened(c, pieces))
  {
    var wider := Widened(c, pieces);
    assert wider[1..] == pieces[1..] && pieces[0] in pieces;
    assert |pieces| > 1 ==> [c] + pieces[0] + "," + Join(pieces[1..]) == [c] + (pieces[0] + "," + Join(pieces[1..]));
  }

  /** Splitting cuts at every comma and only there. */
  lemma {:induction false} SplitIs(s: string)
    ensures Join(Split(s)) == s && CommaFree(Split(s))
    decreases |s|
  {
    if s != "" {
      SplitIs(s[1..]);
      assert s == [s[0]] + s[1..];
      if s[0] == ',' {
        JoinedInFront(Split(s[1..]));
      } else {
        JoinedWidened(s[0], Split(s[1..]));
      }
    }
  }

  /** Every item of a list is some piece, trimmed and not empty, and every such piece is an item. */
  lemma {:induction false} CleanIs(pieces: seq<string>, item: string)
    ensures item in Clean(pieces) <==> item != "" && exists piece <- pieces :: Trim(piece) == item
    decreases |pieces|
  {
    if pieces != [] {
      CleanIs(pieces[1..], item);
      assert pieces == [pieces[0]] + pieces[1..] && pieces[0] in pieces;
      assert item in Clean(pieces) <==> (item == Trim(pieces[0]) && item != "") || item in Clean(pieces[1..]);
    }
  }
}
