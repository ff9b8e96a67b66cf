/** The JavaScript values the engine passes around (test data, placeholders,
    stored outputs) and the few built-in string operations the source relies on:
    `trim`, `toLowerCase`, `split(",")`, the `\s` class, `String(v)` and the
    insertion-ordered property map of a plain object. */
module Js {
  import opened Wrappers

  /** A JSON-like JavaScript value. Objects keep their properties in insertion
      order, as `Object.entries` reports them. Numbers are integers. */
  datatype Value =
    | Undefined
    | Null
    | Bool(b: bool)
    | Num(n: int)
    | Str(s: string)
    | Arr(items: seq<Value>)
    | Obj(fields: seq<(string, Value)>)

  /** JavaScript truthiness (`if (v)`); objects and arrays are always truthy. */
  predicate Truthy(v: Value)
  {
    match v
    case Undefined => false
    case Null => false
    case Bool(b) => b
    case Num(n) => n != 0
    case Str(s) => s != ""
    case Arr(_) => true
    case Obj(_) => true
  }

  // ---------------------------------------------------------------------
  // Plain objects as insertion-ordered property lists
  // ---------------------------------------------------------------------

  /** Position of the property named `k`, or `|o|` when there is none. */
  function Find<V>(o: seq<(string, V)>, k: string): (i: nat)
    ensures i <= |o|
    ensures i < |o| ==> o[i].0 == k
    ensures forall j :: 0 <= j < i ==> o[j].0 != k
  {
    if o == [] then 0 else if o[0].0 == k then 0 else 1 + Find(o[1..], k)
  }

  lemma {:induction false} FindIsFirst<V>(o: seq<(string, V)>, k: string, i: nat)
    requires i <= |o|
    requires i < |o| ==> o[i].0 == k
    requires forall j :: 0 <= j < i ==> o[j].0 != k
    ensures Find(o, k) == i
  {
    if o != [] && o[0].0 != k {
      FindIsFirst(o[1..], k, i - 1);
    }
  }

  /** `o[k]`: the value of property `k`, if the object has it. */
  function Get<V>(o: seq<(string, V)>, k: string): Option<V>
  {
    var i := Find(o, k);
    if i < |o| then Some(o[i].1) else None
  }

  /** The property names in order (`Object.keys`). */
  function KeysOf<V>(o: seq<(string, V)>): (ks: seq<string>)
    ensures |ks| == |o|
    ensures forall i :: 0 <= i < |o| ==> ks[i] == o[i].0
  {
    seq(|o|, i requires 0 <= i < |o| => o[i].0)
  }

  /** Plain objects cannot hold one property twice. */
  ghost predicate UniqueKeys<V>(o: seq<(string, V)>)
  {
    forall i, j :: 0 <= i < j < |o| ==> o[i].0 != o[j].0
  }

  /** `o[k] = v`: an existing property keeps its place and takes the new value,
      a new one is appended. */
  function Put<V>(o: seq<(string, V)>, k: string, v: V): (r: seq<(string, V)>)
    ensures Get(r, k) == Some(v)
    ensures forall k' :: k' != k ==> Get(r, k') == Get(o, k')
    ensures KeysOf(r) == if Get(o, k).Some? then KeysOf(o) else KeysOf(o) + [k]
    ensures UniqueKeys(o) ==> UniqueKeys(r)
  {
    var i := Find(o, k);
    if i < |o| then
      var r := o[i := (k, v)];
      FindIsFirst(r, k, i);
      forall k' | k' != k ensures Get(r, k') == Get(o, k') {
        FindIsFirst(r, k', Find(o, k'));
      }
      assert KeysOf(r) == KeysOf(o);
      r
    else
      var r := o + [(k, v)];
      FindIsFirst(r, k, |o|);
      forall k' | k' != k ensures Get(r, k') == Get(o, k') {
        FindIsFirst(r, k', if Find(o, k') < |o| then Find(o, k') else |r|);
      }
      assert KeysOf(r) == KeysOf(o) + [k];
      r
  }

  /** `obj[k]` on an arbitrary value: `undefined` unless it is an object holding
      `k`. (Arrays and strings have no property named like a step id.) */
  function Field(v: Value, k: string): Value
  {
    if v.Obj? then (match Get(v.fields, k) case Some(x) => x case None => Undefined) else Undefined
  }

  // ---------------------------------------------------------------------
  // Characters and strings
  // ---------------------------------------------------------------------

  /** The `\s` class of JavaScript regular expressions, which is also the set
      `String.prototype.trim` removes: WhiteSpace and LineTerminator. */
  predicate IsSpace(c: char)
  {
    || c == '\t' || c == '\n' || c == '\U{000B}' || c == '\U{000C}' || c == '\r' || c == ' '
    || c == '\U{00A0}' || c == '\U{1680}' || ('\U{2000}' <= c <= '\U{200A}')
    || c == '\U{2028}' || c == '\U{2029}' || c == '\U{202F}' || c == '\U{205F}'
    || c == '\U{3000}' || c == '\U{FEFF}'
  }

  predicate AllSpace(s: string)
  {
    forall i :: 0 <= i < |s| ==> IsSpace(s[i])
  }

  predicate IsDigit(c: char)
  {
    '0' <= c <= '9'
  }

  /** Number of leading whitespace characters. */
  function LeadingSpaces(s: string): (n: nat)
    ensures n <= |s|
    ensures AllSpace(s[..n])
    ensures n < |s| ==> !IsSpace(s[n])
  {
    if s == [] || !IsSpace(s[0]) then 0
    else
      var n := 1 + LeadingSpaces(s[1..]);
      assert s[..n] == [s[0]] + s[1..][..n - 1];
      n
  }

  /** Number of trailing whitespace characters. */
  function TrailingSpaces(s: string): (n: nat)
    ensures n <= |s|
    ensures AllSpace(s[|s| - n..])
    ensures n < |s| ==> !IsSpace(s[|s| - n - 1])
  {
    if s == [] || !IsSpace(s[|s| - 1]) then 0
    else
      var n := 1 + TrailingSpaces(s[..|s| - 1]);
      assert s[|s| - n..] == s[..|s| - 1][|s| - n..] + [s[|s| - 1]];
      n
  }

  /** `s.trim()`. */
  function Trim(s: string): (t: string)
    ensures |t| <= |s|
    ensures t != [] ==> !IsSpace(t[0]) && !IsSpace(t[|t| - 1])
    ensures exists i, j :: 0 <= i <= j <= |s| && t == s[i..j] && AllSpace(s[..i]) && AllSpace(s[j..])
  {
    var i := LeadingSpaces(s);
    var rest := s[i..];
    var j := |rest| - TrailingSpaces(rest);
    assert s[i..][..j] == s[i..i + j];
    assert s[i + j..] == rest[j..];
    rest[..j]
  }

  /** Where the trimmed part sits in the string. */
  lemma TrimShape(s: string) returns (i: nat, j: nat)
    ensures i <= j <= |s| && Trim(s) == s[i..j]
    ensures AllSpace(s[..i]) && AllSpace(s[j..])
    ensures s == s[..i] + Trim(s) + s[j..]
  {
    i, j :| 0 <= i <= j <= |s| && Trim(s) == s[i..j] && AllSpace(s[..i]) && AllSpace(s[j..]);
    assert s == s[..i] + s[i..j] + s[j..];
  }

  /** Trimming a string that is whitespace, then a core with no whitespace at
      either end, then whitespace, leaves exactly the core. */
  lemma {:induction false} TrimAround(pre: string, core: string, post: string)
    requires AllSpace(pre) && AllSpace(post)
    requires core != [] && !IsSpace(core[0]) && !IsSpace(core[|core| - 1])
    ensures Trim(pre + core + post) == core
  {
    var s := pre + core + post;
    LeadingExactly(s, |pre|);
    var rest := s[|pre|..];
    assert rest == core + post;
    TrailingExactly(rest, |post|);
    assert rest[..|rest| - |post|] == core;
  }

  lemma {:induction false} LeadingExactly(s: string, n: nat)
    requires n < |s| && AllSpace(s[..n]) && !IsSpace(s[n])
    ensures LeadingSpaces(s) == n
  {
    if n > 0 {
      assert s[1..][..n - 1] == s[1..n];
      LeadingExactly(s[1..], n - 1);
    }
  }

  lemma {:induction false} TrailingExactly(s: string, n: nat)
    requires n < |s| && AllSpace(s[|s| - n..]) && !IsSpace(s[|s| - n - 1])
    ensures TrailingSpaces(s) == n
  {
    if n > 0 {
      var s' := s[..|s| - 1];
      assert s'[|s'| - (n - 1)..] == s[|s| - n..|s| - 1];
      assert s[|s| - 1] == s[|s| - n..][n - 1];
      TrailingExactly(s', n - 1);
    }
  }

  /** `c.toLowerCase()` restricted to ASCII letters. */
  function LowerChar(c: char): char
  {
    if 'A' <= c <= 'Z' then (c as int + 32) as char else c
  }

  /** `s.toLowerCase()` (ASCII letters only). */
  function Lower(s: string): (t: string)
    ensures |t| == |s|
    ensures forall i :: 0 <= i < |s| ==> t[i] == LowerChar(s[i])
  {
    seq(|s|, i requires 0 <= i < |s| => LowerChar(s[i]))
  }

  /** `s.split(sep)` for a one-character separator: every occurrence cuts. */
  function Split(s: string, sep: char): (parts: seq<string>)
    ensures |parts| >= 1
    ensures forall p :: p in parts ==> sep !in p
  {
    var i := IndexOfChar(s, sep);
    if i == |s| then [s]
    else
      assert s[..i] == s[..i];
      [s[..i]] + Split(s[i + 1..], sep)
  }

  /** Position of the first `c` in `s`, or `|s|`. */
  function IndexOfChar(s: string, c: char): (i: nat)
    ensures i <= |s|
    ensures i < |s| ==> s[i] == c
    ensures c !in s[..i]
  {
    if s == [] then 0
    else if s[0] == c then 0
    else
      var i := 1 + IndexOfChar(s[1..], c);
      assert s[..i] == [s[0]] + s[1..][..i - 1];
      i
  }

  /** `parts.join(sep)`. */
  function Join(parts: seq<string>, sep: char): string
  {
    if parts == [] then "" else if |parts| == 1 then parts[0] else parts[0] + [sep] + Join(parts[1..], sep)
  }

  /** Splitting and joining on the same separator gives back the string. */
  lemma {:induction false} SplitJoin(s: string, sep: char)
    ensures Join(Split(s, sep), sep) == s
  {
    var i := IndexOfChar(s, sep);
    if i < |s| {
      SplitJoin(s[i + 1..], sep);
      assert s == s[..i] + [sep] + s[i + 1..];
    }
  }

  /** Decimal digits of a natural number, as in a template literal. */
  function DecimalString(n: nat): (s: string)
    ensures |s| >= 1
    ensures forall i :: 0 <= i < |s| ==> IsDigit(s[i])
  {
    if n < 10 then [DigitChar(n)] else DecimalString(n / 10) + [DigitChar(n % 10)]
  }

  function DigitChar(d: nat): (c: char)
    requires d < 10
    ensures IsDigit(c)
  {
    ('0' as int + d) as char
  }

  /** `String(v)` / template-literal interpolation. */
  function ToStr(v: Value): string
  {
    match v
    case Undefined => "undefined"
    case Null => "null"
    case Bool(b) => if b then "true" else "false"
    case Num(n) => if n < 0 then "-" + DecimalString(-n) else DecimalString(n)
    case Str(s) => s
    case Arr(items) => JoinItems(items)
    case Obj(_) => "[object Object]"
  }

  /** `Array.prototype.join(",")`: `null` and `undefined` items print as "". */
  function JoinItems(items: seq<Value>): string
    decreases items, 0
  {
    if items == [] then ""
    else
      var head := if items[0].Undefined? || items[0].Null? then "" else ToStr(items[0]);
      if |items| == 1 then head else head + "," + JoinItems(items[1..])
  }

  /** `hay.includes(needle)` for strings. */
  predicate IsSubstring(needle: string, hay: string)
  {
    exists i :: 0 <= i <= |hay| - |needle| && OccursAt(needle, hay, i)
  }

  predicate OccursAt(needle: string, hay: string, i: int)
  {
    0 <= i <= |hay| - |needle| && hay[i..i + |needle|] == needle
  }

  /** `s.replace(pattern, with)` with a string pattern: the first occurrence
      only. */
  function ReplaceFirst(s: string, pattern: string, with: string): string
    decreases |s|
  {
    if |pattern| > |s| then s
    else if s[..|pattern|] == pattern then with + s[|pattern|..]
    else if s == [] then s
    else [s[0]] + ReplaceFirst(s[1..], pattern, with)
  }
}
