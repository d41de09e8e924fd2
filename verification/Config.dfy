/** The configuration layer: a command line filled in from a file and then from the environment. */
module Config {
  import opened Wrappers
  import Text

  type Flags = map<string, seq<string>>

  type Env = map<string, string>

  const PREFIX := "WARDEN_CONNECT_"

  function Underscored(s: string): string {
    if s == "" then "" else [if s[0] == '-' then '_' else Text.UpperChar(s[0])] + Underscored(s[1..])
  }

  function EnvVar(flag: string): string {
    PREFIX + Underscored(flag)
  }

  /** What a file holds for a flag this command knows. */
  function FromFile(flag: string, file: Option<Flags>, known: seq<string>): Option<seq<string>> {
    if flag in known && file.Some? && flag in file.value then Some(file.value[flag]) else None
  }

  /** What the environment holds for a flag this command knows; an empty variable is no value. */
  function FromEnv(flag: string, env: Env, known: seq<string>): Option<seq<string>> {
    if flag in known && EnvVar(flag) in env && env[EnvVar(flag)] != "" then Some([env[EnvVar(flag)]]) else None
  }

  /** The first layer that holds the flag: the command line, the file, the environment. */
  function Choice(flag: string, flags: Flags, file: Option<Flags>, env: Env, known: seq<string>): Option<seq<string>> {
    if flag in flags then Some(flags[flag])
    else if FromFile(flag, file, known).Some? then FromFile(flag, file, known)
    else FromEnv(flag, env, known)
  }

  /** `after` is `flags` with every absent flag looked up in the file and then in the environment. */
  ghost predicate Layered(after: Flags, flags: Flags, file: Option<Flags>, env: Env, known: seq<string>) {
    forall k :: (k in after <==> Choice(k, flags, file, env, known).Some?)
             && (k in after ==> Some(after[k]) == Choice(k, flags, file, env, known))
  }

  class CommandLine {
    var verbs: seq<string>
    var flags: Flags
    var positional: seq<string>

    constructor (v: seq<string>, f: Flags, p: seq<string>)
      ensures verbs == v && flags == f && positional == p
    {
      verbs, flags, positional := v, f, p;
    }

    method FillFromFile(file: Option<Flags>, known: seq<string>)
      modifies this`flags
      ensures Layered(flags, old(flags), file, map[], known)
    {
      if file.Some? {
        var left := file.value.Keys;
        while left != {}
          invariant left <= file.value.Keys
          invariant forall k :: k in flags <==> k in old(flags) || (k in file.value && k !in left && k in known)
          invariant forall k :: k in old(flags) ==> flags[k] == old(flags)[k]
          invariant forall k :: k in flags && k !in old(flags) ==> flags[k] == file.value[k]
          decreases left
        {
          var flag :| flag in left;
          left := left - {flag};
          if flag in known && flag !in flags {
            flags := flags[flag := file.value[flag]];
          }
        }
      }
    }

    method FillFromEnv(env: Env, known: seq<string>)
      modifies this`flags
      ensures Layered(flags, old(flags), None, env, known)
    {
      for i := 0 to |known|
        invariant Layered(flags, old(flags), None, env, known[..i])
      {
        var flag := known[i];
        assert forall k :: k in known[..i + 1] <==> k in known[..i] || k == flag;
        if flag !in flags && EnvVar(flag) in env && env[EnvVar(flag)] != "" {
          flags := flags[flag := [env[EnvVar(flag)]]];
        }
      }
      assert known[..|known|] == known;
    }

    /** File first, environment second, and only where something is missing. */
    method Apply(file: Option<Flags>, env: Env, known: seq<string>)
      modifies this`flags
      ensures Layered(flags, old(flags), file, env, known)
    {
      FillFromFile(file, known);
      ghost var middle := flags;
      FillFromEnv(env, known);
      LayersCompose(old(flags), middle, flags, file, env, known);
    }
  }

  lemma LayersCompose(before: Flags, middle: Flags, after: Flags, file: Option<Flags>, env: Env, known: seq<string>)
    requires Layered(middle, before, file, map[], known)
    requires Layered(after, middle, None, env, known)
    ensures Layered(after, before, file, env, known)
  {
    forall k
      ensures (k in after <==> Choice(k, before, file, env, known).Some?)
           && (k in after ==> Some(after[k]) == Choice(k, before, file, env, known))
    {
      assert k in middle <==> Choice(k, before, file, map[], known).Some?;
    }
  }

  /** The precedence fixes the result. */
  lemma LayeringIsAFunction(a: Flags, b: Flags, flags: Flags, file: Option<Flags>, env: Env, known: seq<string>)
    requires Layered(a, flags, file, env, known) && Layered(b, flags, file, env, known)
    ensures a == b
  {
    assert forall k :: k in a <==> k in b;
  }

  /** Filling in twice is filling in once. */
  lemma LayeringIsIdempotent(flags: Flags, once: Flags, twice: Flags, file: Option<Flags>, env: Env, known: seq<string>)
    requires Layered(once, flags, file, env, known)
    requires Layered(twice, once, file, env, known)
    ensures twice == once
  {
    assert forall k :: k in twice <==> k in once;
  }

  /** The check made after filling in: only flags the command or every command accepts. */
  predicate Accepted(flags: Flags, accepted: seq<string>, global: seq<string>) {
    forall k <- flags.Keys :: k in global || k in accepted
  }

  /** Filling in keeps every flag given, adds only known ones, and so never changes the verdict on the command line. */
  lemma FillingNeverChangesTheVerdict(flags: Flags, after: Flags, file: Option<Flags>, env: Env,
                                      accepted: seq<string>, global: seq<string>)
    requires Layered(after, flags, file, env, accepted + global)
    ensures flags.Keys <= after.Keys && after.Keys - flags.Keys <= (set k <- accepted + global)
    ensures forall k :: k in flags ==> after[k] == flags[k]
    ensures Accepted(after, accepted, global) <==> Accepted(flags, accepted, global)
    ensures Accepted(flags, accepted, global) <==> flags.Keys <= (set k <- accepted + global)
  {
    assert forall k :: k in flags ==> k in after;
    assert forall k :: k in after && k !in flags ==> k in accepted + global;
    if Accepted(after, accepted, global) {
      forall k <- flags.Keys ensures k in global || k in accepted {
        assert k in after.Keys;
      }
    }
  }

  lemma {:induction false} UnderscoredAt(s: string, i: nat)
    requires i < |s|
    ensures |Underscored(s)| == |s|
    ensures Underscored(s)[i] == if s[i] == '-' then '_' else Text.UpperChar(s[i])
    decreases |s|
  {
    if |s| > 1 {
      UnderscoredAt(s[1..], if i > 0 then i - 1 else 0);
    } else {
      assert Underscored(s[1..]) == "";
    }
  }

  /** Two spellings of one letter, as far as an environment variable can tell. */
  predicate SameLetter(c: char, d: char) {
    (if c == '-' then '_' else Text.UpperChar(c)) == (if d == '-' then '_' else Text.UpperChar(d))
  }

  /** Two flags read one variable exactly when they differ only in case and in '-' for '_'. */
  lemma SharedVariable(a: string, b: string)
    ensures EnvVar(a) == EnvVar(b)
            <==> |a| == |b| && forall i :: 0 <= i < |a| ==> SameLetter(a[i], b[i])
  {
    UnderscoredLength(a);
    UnderscoredLength(b);
    assert EnvVar(a)[|PREFIX|..] == Underscored(a) && EnvVar(b)[|PREFIX|..] == Underscored(b);
    forall i | 0 <= i < |a| ensures Underscored(a)[i] == if a[i] == '-' then '_' else Text.UpperChar(a[i]) {
      UnderscoredAt(a, i);
    }
    forall i | 0 <= i < |b| ensures Underscored(b)[i] == if b[i] == '-' then '_' else Text.UpperChar(b[i]) {
      UnderscoredAt(b, i);
    }
  }

  lemma UnderscoredLength(s: string)
    ensures |Underscored(s)| == |s|
  {
    if s != "" {
      UnderscoredAt(s, 0);
    }
  }

  /** The variable's name, letter by letter: the prefix, then capitals, with '_' for '-'. */
  lemma VariableName(flag: string)
    ensures EnvVar(flag)[..15] == "WARDEN_CONNECT_" && |EnvVar(flag)| == 15 + |flag|
    ensures forall i :: 0 <= i < |flag| ==>
              EnvVar(flag)[15 + i] as int ==
              if flag[i] == '-' then '_' as int
              else flag[i] as int - if 'a' <= flag[i] <= 'z' then 32 else 0
  {
    UnderscoredLength(flag);
    forall i | 0 <= i < |flag| ensures EnvVar(flag)[15 + i] == Underscored(flag)[i] { }
    forall i | 0 <= i < |flag|
      ensures Underscored(flag)[i] == if flag[i] == '-' then '_' else Text.UpperChar(flag[i])
    {
      UnderscoredAt(flag, i);
    }
  }
}
