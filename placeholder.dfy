/** The placeholder syntax of framework/utils/resolveScenarioData.js: a field
    value `{scenarioId.key}`, with optional whitespace inside the braces, refers
    to an output stored by an earlier scenario of the same testcase. */
module Placeholder {
  import opened Wrappers
  import opened Js

  // ---------------------------------------------------------------------
  // PLACEHOLDER_RE = ^\{\s*([a-zA-Z0-9_-]+)\.([a-zA-Z0-9_-]+)\s*\}$
  // ---------------------------------------------------------------------

  predicate IsIdChar(c: char)
  {
    ('a' <= c <= 'z') || ('A' <= c <= 'Z') || ('0' <= c <= '9') || c == '_' || c == '-'
  }

  predicate IsIdent(s: string)
  {
    |s| > 0 && forall i :: 0 <= i < |s| ==> IsIdChar(s[i])
  }

  /** The two capture groups when `s` matches the placeholder pattern as a
      whole string, `None` otherwise. */
  function MatchPlaceholder(s: string): Option<(string, string)>
  {
    if |s| < 2 || s[0] != '{' || s[|s| - 1] != '}' then None
    else
      var core := Trim(s[1..|s| - 1]);
      var d := IndexOfChar(core, '.');
      if d < |core| && IsIdent(core[..d]) && IsIdent(core[d + 1..]) then Some((core[..d], core[d + 1..]))
      else None
  }

  /** The pattern's language stated directly: a brace, optional whitespace, the
      scenario id, a dot, the key, optional whitespace, a brace. */
  ghost predicate IsPlaceholderFor(s: string, sid: string, key: string)
  {
    && IsIdent(sid) && IsIdent(key)
    && exists pre, post :: AllSpace(pre) && AllSpace(post) && s == Braced(pre, sid, key, post)
  }

  function Braced(pre: string, sid: string, key: string, post: string): string
  {
    "{" + pre + sid + "." + key + post + "}"
  }

  lemma {:induction false} IndexOfCharIs(s: string, c: char, i: nat)
    requires i < |s| && s[i] == c && c !in s[..i]
    ensures IndexOfChar(s, c) == i
  {
    if i > 0 {
      assert s[0] in s[..i];
      assert s[1..][..i - 1] == s[1..i];
      assert forall x :: x in s[1..i] ==> x in s[..i];
      IndexOfCharIs(s[1..], c, i - 1);
    }
  }

  /** Every match is a placeholder for its two groups. */
  lemma MatchPlaceholderSound(s: string, sid: string, key: string)
    requires MatchPlaceholder(s) == Some((sid, key))
    ensures IsPlaceholderFor(s, sid, key)
  {
    var inner := s[1..|s| - 1];
    var core := Trim(inner);
    var i, j := TrimShape(inner);
    var d := IndexOfChar(core, '.');
    BracedParts(s, inner[..i], core, core[..d], core[d + 1..], inner[j..]);
  }

  lemma BracedParts(s: string, pre: string, core: string, sid: string, key: string, post: string)
    requires |s| >= 2 && s[0] == '{' && s[|s| - 1] == '}'
    requires s[1..|s| - 1] == pre + core + post
    requires |sid| < |core| && core[|sid|] == '.' && sid == core[..|sid|] && key == core[|sid| + 1..]
    ensures s == Braced(pre, sid, key, post)
  {
    assert core == sid + "." + key;
    assert s == [s[0]] + s[1..|s| - 1] + [s[|s| - 1]];
  }

  lemma IdentHasNoSpace(s: string)
    requires IsIdent(s)
    ensures !IsSpace(s[0]) && !IsSpace(s[|s| - 1]) && '.' !in s
  {
    assert IsIdChar(s[0]) && IsIdChar(s[|s| - 1]);
  }

  /** Every placeholder is matched, with its scenario id and key as groups. */
  lemma MatchPlaceholderComplete(s: string, sid: string, key: string)
    requires IsPlaceholderFor(s, sid, key)
    ensures MatchPlaceholder(s) == Some((sid, key))
  {
    var pre, post :| AllSpace(pre) && AllSpace(post) && s == Braced(pre, sid, key, post);
    var core := sid + "." + key;
    Unbraced(s, pre, sid, key, post);
    IdentHasNoSpace(sid);
    IdentHasNoSpace(key);
    DottedEnds(sid, key);
    TrimAround(pre, core, post);
    DottedIndex(sid, key);
    MatchedParts(s, sid, key);
  }

  lemma Unbraced(s: string, pre: string, sid: string, key: string, post: string)
    requires s == Braced(pre, sid, key, post)
    ensures |s| >= 2 && s[0] == '{' && s[|s| - 1] == '}'
    ensures s[1..|s| - 1] == pre + (sid + "." + key) + post
  {
  }

  lemma DottedEnds(sid: string, key: string)
    requires sid != [] && key != []
    ensures (sid + "." + key)[0] == sid[0] && (sid + "." + key)[|sid + "." + key| - 1] == key[|key| - 1]
  {
  }

  lemma DottedIndex(sid: string, key: string)
    requires '.' !in sid
    ensures IndexOfChar(sid + "." + key, '.') == |sid|
  {
    var core := sid + "." + key;
    assert core[..|sid|] == sid;
    IndexOfCharIs(core, '.', |sid|);
  }

  lemma MatchedParts(s: string, sid: string, key: string)
    requires |s| >= 2 && s[0] == '{' && s[|s| - 1] == '}'
    requires Trim(s[1..|s| - 1]) == sid + "." + key
    requires IndexOfChar(sid + "." + key, '.') == |sid|
    requires IsIdent(sid) && IsIdent(key)
    ensures MatchPlaceholder(s) == Some((sid, key))
  {
    var core := sid + "." + key;
    assert core[..|sid|] == sid;
    assert core[|sid| + 1..] == key;
  }

  /** A placeholder embedded in other text is not one: text before the
      opening brace, or text after the closing brace that does not itself end
      in a brace, makes the whole string a non-match. */
  lemma EmbeddedIsNotPlaceholder(prefix: string, s: string, suffix: string)
    requires (prefix != [] && prefix[0] != '{') || (suffix != [] && suffix[|suffix| - 1] != '}')
    ensures MatchPlaceholder(prefix + s + suffix) == None
  {
    var all := prefix + s + suffix;
    if prefix != [] {
      assert all[0] == prefix[0];
    }
    if suffix != [] {
      assert all[|all| - 1] == suffix[|suffix| - 1];
    }
  }
}
