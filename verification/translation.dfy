/** The translation hook's `t`: the text of a key in the current
    language's table, falling back to the key itself, with every
    `{{name}}` placeholder replaced by the value of the variable `name`,
    one variable after the other. */
module Translation {
  import opened Text

  /** `{{key}}`, the text the hook's regular expression matches. */
  function Placeholder(key: string): (r: string)
    ensures "{{" <= r && |r| == |key| + 4
  {
    "{{" + key + "}}"
  }

  /** `translations[language][key] || key`: a missing or empty
      translation falls back to the key, so the result is empty only for
      the empty key. */
  function Lookup(table: map<string, string>, key: string): (r: string)
    ensures r == key || (key in table && r == table[key])
    ensures key in table && table[key] != "" ==> r == table[key]
    ensures r == "" ==> key == ""
  {
    if key in table && table[key] != "" then table[key] else key
  }

  /** `text.replace(new RegExp(pat, "g"), val)` for a pattern without
      metacharacters: the occurrences of `pat` are found from left to
      right, without overlapping, and each is replaced by `val`; the
      replaced text is not searched again. */
  function ReplaceAll(s: string, pat: string, val: string): (r: string)
    requires pat != []
    ensures val == pat ==> r == s
    ensures |val| == |pat| ==> |r| == |s|
    decreases |s|
  {
    if s == [] then []
    else if pat <= s then val + ReplaceAll(s[|pat|..], pat, val)
    else [s[0]] + ReplaceAll(s[1..], pat, val)
  }

  /** A text without the pattern is returned unchanged. */
  lemma {:induction false} ReplaceAllAbsent(s: string, pat: string, val: string)
    requires pat != [] && !Contains(s, pat)
    ensures ReplaceAll(s, pat, val) == s
  {
    if s != [] {
      ReplaceAllAbsent(s[1..], pat, val);
    }
  }

  /** The variables applied in entry order: the last entry is substituted
      into the text the earlier entries produced. */
  function ApplyVars(text: string, vars: seq<(string, string)>): (r: string)
    ensures (forall i :: 0 <= i < |vars| ==> vars[i].1 == Placeholder(vars[i].0)) ==> r == text
    ensures (forall i :: 0 <= i < |vars| ==> |vars[i].1| == |vars[i].0| + 4) ==> |r| == |text|
    decreases |vars|
  {
    if vars == [] then text
    else
      var last := vars[|vars| - 1];
      ReplaceAll(ApplyVars(text, vars[..|vars| - 1]), Placeholder(last.0), last.1)
  }

  /** `t(key, variables)` in the language whose table is selected; an
      absent `variables` behaves as an empty list of entries. */
  method Translate(translations: map<string, map<string, string>>, language: string,
                   key: string, variables: seq<(string, string)>) returns (text: string)
    requires language in translations
    ensures text == ApplyVars(Lookup(translations[language], key), variables)
  {
    text := Lookup(translations[language], key);
    var i := 0;
    while i < |variables|
      invariant 0 <= i <= |variables|
      invariant text == ApplyVars(Lookup(translations[language], key), variables[..i])
    {
      assert variables[..i + 1][..i] == variables[..i];
      text := ReplaceAll(text, Placeholder(variables[i].0), variables[i].1);
      i := i + 1;
    }
    assert variables[..|variables|] == variables;
  }

  /** Without variables the looked-up text is returned as it is. */
  lemma NoVariablesKeepText(table: map<string, string>, key: string)
    ensures ApplyVars(Lookup(table, key), []) == Lookup(table, key)
  {
  }

  /** A string that contains `sub` contains every prefix of `sub`. */
  lemma {:induction false} ContainsPrefix(s: string, sub: string, p: string)
    requires p <= sub
    ensures Contains(s, sub) ==> Contains(s, p)
  {
    if s != [] {
      ContainsPrefix(s[1..], sub, p);
    }
  }

  /** A text with no `{{` is returned unchanged whatever the variables. */
  lemma {:induction false} NoPlaceholderUnchanged(text: string, vars: seq<(string, string)>)
    requires !Contains(text, "{{")
    ensures ApplyVars(text, vars) == text
  {
    if vars != [] {
      NoPlaceholderUnchanged(text, vars[..|vars| - 1]);
      ContainsPrefix(text, Placeholder(vars[|vars| - 1].0), "{{");
      ReplaceAllAbsent(text, Placeholder(vars[|vars| - 1].0), vars[|vars| - 1].1);
    }
  }

  /** An occurrence after text without the pattern's first character is
      the next one replaced, and replacement goes on after it. */
  lemma {:induction false} ReplaceAfterPlain(x: string, y: string, pat: string, val: string)
    requires pat != []
    requires forall i :: 0 <= i < |x| ==> x[i] != pat[0]
    ensures ReplaceAll(x + pat + y, pat, val) == x + val + ReplaceAll(y, pat, val)
  {
    var z := x + pat + y;
    if x == [] {
      assert z == pat + y && pat <= z;
      assert z[|pat|..] == y;
    } else {
      assert z[0] == x[0] != pat[0];
      assert z[1..] == x[1..] + pat + y;
      ReplaceAfterPlain(x[1..], y, pat, val);
      assert ReplaceAll(z, pat, val) == [x[0]] + (x[1..] + val + ReplaceAll(y, pat, val));
      assert [x[0]] + x[1..] == x;
    }
  }

  /** The replacement is global: both occurrences of `{{name}}` in
      "{{name}} ו{{name}}" are replaced. */
  lemma EveryOccurrenceReplaced(text: string)
    requires text == Placeholder("name") + " ו" + Placeholder("name")
    ensures ApplyVars(text, [("name", "דנה")]) == "דנה ודנה"
  {
    var pat := Placeholder("name");
    assert [("name", "דנה")][..0] == [];
    ReplaceAfterPlain([], " ו" + pat, pat, "דנה");
    assert [] + pat + (" ו" + pat) == text;
    ReplaceAfterPlain(" ו", [], pat, "דנה");
    assert " ו" + pat + [] == " ו" + pat;
  }

  /** Entries are applied in order, so a value holding `{{first}}` is
      itself filled in by the later entry `first`. */
  lemma ChainedSubstitution(text: string)
    requires text == Placeholder("name")
    ensures ApplyVars(text, [("name", Placeholder("first")), ("first", "דנה")]) == "דנה"
  {
    var vars := [("name", Placeholder("first")), ("first", "דנה")];
    assert vars[..1] == [("name", Placeholder("first"))];
    assert vars[..1][..0] == [];
    ReplaceAfterPlain([], [], text, Placeholder("first"));
    assert [] + text + [] == text;
    ReplaceAfterPlain([], [], Placeholder("first"), "דנה");
    assert [] + Placeholder("first") + [] == Placeholder("first");
  }

  /** A text that starts with `p`, where `p` avoids the first character of
      the value, already started with `p` before the replacement. */
  lemma {:induction false} PrefixSurvives(s: string, pat: string, val: string, p: string)
    requires pat != [] && val != [] && val[0] !in p
    ensures p <= ReplaceAll(s, pat, val) ==> p <= s
  {
    if s != [] && p != [] && !(pat <= s) {
      PrefixSurvives(s[1..], pat, val, p[1..]);
    }
  }

  /** Text none of whose characters occur in `pat`, put in front of a
      string without `pat`, does not create an occurrence. */
  lemma {:induction false} NoSharedNoContains(x: string, t: string, pat: string)
    requires pat != [] && !Contains(t, pat)
    requires forall i :: 0 <= i < |x| ==> x[i] !in pat
    ensures !Contains(x + t, pat)
  {
    if x == [] {
      assert x + t == t;
    } else {
      assert (x + t)[0] == x[0];
      assert (x + t)[1..] == x[1..] + t;
      NoSharedNoContains(x[1..], t, pat);
    }
  }

  /** After substituting a non-empty value that shares no character with
      the placeholder, no placeholder remains. */
  lemma {:induction false} NoPlaceholderRemains(s: string, pat: string, val: string)
    requires pat != [] && val != []
    requires forall i :: 0 <= i < |val| ==> val[i] !in pat
    ensures !Contains(ReplaceAll(s, pat, val), pat)
  {
    if s != [] {
      if pat <= s {
        NoPlaceholderRemains(s[|pat|..], pat, val);
        NoSharedNoContains(val, ReplaceAll(s[|pat|..], pat, val), pat);
      } else {
        var t := ReplaceAll(s[1..], pat, val);
        NoPlaceholderRemains(s[1..], pat, val);
        PrefixSurvives(s[1..], pat, val, pat[1..]);
        assert ([s[0]] + t)[1..] == t;
      }
    }
  }

  /** With a value that does not contain `{{a}}` but ends a placeholder,
      the substitution can put a `{{a}}` together: "{{a{{a}}" with `a`
      set to "}}" becomes "{{a}}". */
  lemma PlaceholderCanReappear(s: string)
    requires s == "{{a{{a}}"
    ensures !Contains("}}", Placeholder("a"))
    ensures ApplyVars(s, [("a", "}}")]) == Placeholder("a")
  {
    var pat := Placeholder("a");
    assert pat == "{{a}}";
    assert [("a", "}}")][..0] == [];
    assert s[3..] == pat && s[1..][1..] == s[2..] && s[2..][1..] == s[3..];
    assert !(pat <= s) && !(pat <= s[1..]) && !(pat <= s[2..]);
    ReplaceAfterPlain([], [], pat, "}}");
    assert [] + pat + [] == pat;
    assert ReplaceAll(s[2..], pat, "}}") == "a" + "}}";
    assert ReplaceAll(s[1..], pat, "}}") == "{" + "a" + "}}";
    assert ReplaceAll(s, pat, "}}") == "{" + "{" + "a" + "}}";
    NotContainsWithoutFirst("}}", pat);
  }
}
