/** The fragment of JavaScript value and string semantics that the components rely on:
    possibly-`undefined` properties, truthiness, `||`, `String.prototype.split` with a
    one-character separator, `slice` and template-literal interpolation. */
module Js {

  datatype Option<+T> = None | Some(value: T)

  /** A plain object whose properties are all strings: a form draft, a stored document, a listed snippet. */
  type Doc = map<string, string>

  /** `obj.key`: the property's value, or `undefined` when the object has no such key. */
  function Get(d: Doc, key: string): Option<string>
  {
    if key in d then Some(d[key]) else None
  }

  /** A property's text where `undefined` counts as "": what React renders for it, and what
      `obj.key || ""` gives for a string property. */
  function TextOf(d: Doc, key: string): string
  {
    if key in d then d[key] else ""
  }

  /** JavaScript truthiness of a possibly-`undefined` string: `undefined` and `""` are falsy. */
  predicate Truthy(v: Option<string>)
  {
    v.Some? && v.value != ""
  }

  /** `v || fallback` for a possibly-`undefined` string. */
  function OrElse(v: Option<string>, fallback: string): string
  {
    if Truthy(v) then v.value else fallback
  }

  /** `${v}` in a template literal: `undefined` is rendered as the text "undefined". */
  function Interpolate(v: Option<string>): string
  {
    match v
    case None => "undefined"
    case Some(s) => s
  }

  function Min(a: nat, b: nat): nat
  {
    if a <= b then a else b
  }

  /** `s.slice(begin, end)` for non-negative arguments: both ends are clamped to the length,
      and an end before the beginning gives the empty string. */
  function Slice(s: string, begin: nat, end: nat): (r: string)
    ensures |r| == if Min(begin, |s|) <= Min(end, |s|) then Min(end, |s|) - Min(begin, |s|) else 0
    ensures Min(begin, |s|) <= Min(end, |s|) ==> r == s[Min(begin, |s|)..Min(end, |s|)]
  {
    var b := Min(begin, |s|);
    var e := Min(end, |s|);
    if b <= e then s[b..e] else ""
  }

  /** How many times `c` occurs in `s`. */
  function Occurrences(s: string, c: char): nat
  {
    if s == [] then 0 else (if s[0] == c then 1 else 0) + Occurrences(s[1..], c)
  }

  /** `parts.join(sep)` */
  function Join(parts: seq<string>, sep: char): string
    requires |parts| >= 1
  {
    if |parts| == 1 then parts[0] else parts[0] + [sep] + Join(parts[1..], sep)
  }

  /** `s.split(sep)` for a one-character separator: the pieces between separators, one more
      piece than there are separators, none containing the separator, and joining them
      back with the separator gives `s` again. */
  function Split(s: string, sep: char): (parts: seq<string>)
    ensures |parts| == Occurrences(s, sep) + 1
    ensures forall i :: 0 <= i < |parts| ==> sep !in parts[i]
    ensures Join(parts, sep) == s
    decreases |s|
  {
    if s == [] then [""]
    else
      var rest := Split(s[1..], sep);
      if s[0] == sep then
        assert ([""] + rest)[1..] == rest;
        [""] + rest
      else
        var parts := [[s[0]] + rest[0]] + rest[1..];
        assert parts[1..] == rest[1..];
        assert s == [s[0]] + s[1..];
        assert |rest| > 1 ==> Join(rest, sep) == rest[0] + [sep] + Join(rest[1..], sep);
        parts
  }

  /** `s.indexOf(c)`, except that "not found" is `|s|` instead of -1. */
  function IndexOf(s: string, c: char): (i: nat)
    ensures i <= |s|
    ensures i < |s| ==> s[i] == c
    ensures c !in s[..i]
  {
    if s == [] then 0
    else if s[0] == c then 0
    else
      var j := IndexOf(s[1..], c);
      assert s[..j + 1] == [s[0]] + s[1..][..j];
      1 + j
  }

  /** The first separator of `a + [c] + rest` is the one after `a` when `a` has none. */
  lemma IndexOfAfterFree(a: string, c: char, rest: string)
    requires c !in a
    ensures IndexOf(a + [c] + rest, c) == |a|
  {
    var s := a + [c] + rest;
    assert s[|a|] == c;
    assert s[..|a|] == a;
  }

  /** Splitting stops at the first separator: the first piece is what precedes it, and the
      remaining pieces are the split of what follows it. */
  lemma {:induction false} SplitAtFirst(s: string, sep: char)
    ensures Split(s, sep)[0] == s[..IndexOf(s, sep)]
    ensures IndexOf(s, sep) == |s| ==> |Split(s, sep)| == 1
    ensures IndexOf(s, sep) < |s| ==> Split(s, sep)[1..] == Split(s[IndexOf(s, sep) + 1..], sep)
    decreases |s|
  {
    if s == [] {
    } else if s[0] == sep {
      assert ([""] + Split(s[1..], sep))[1..] == Split(s[1..], sep);
    } else {
      SplitAtFirst(s[1..], sep);
      var j := IndexOf(s[1..], sep);
      assert s[..j + 1] == [s[0]] + s[1..][..j];
      if j < |s| - 1 {
        assert s[1..][j + 1..] == s[j + 2..];
      }
    }
  }
}
