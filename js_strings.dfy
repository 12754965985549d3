/** The few JavaScript string built-ins the handlers rely on:
    `String.prototype.trim`, `Array.prototype.join("")` and the `length`
    property. A string is a sequence of Unicode scalar values; `Length`
    counts it the way JavaScript does, in UTF-16 code units. */
module JsStrings {

  /** The characters `trim` removes: the ECMAScript WhiteSpace production
      (TAB, VT, FF, SPACE, NBSP, ZWNBSP and every Zs character) and the
      LineTerminator production (LF, CR, LS, PS). */
  predicate IsJsWhitespace(c: char) {
    || c == '\t' || c == '\n' || c == '\U{000B}' || c == '\U{000C}' || c == '\r'
    || c == ' ' || c == '\U{00A0}' || c == '\U{1680}'
    || ('\U{2000}' <= c <= '\U{200A}')
    || c == '\U{2028}' || c == '\U{2029}' || c == '\U{202F}' || c == '\U{205F}'
    || c == '\U{3000}' || c == '\U{FEFF}'
  }

  predicate AllWhitespace(s: string) {
    forall i :: 0 <= i < |s| ==> IsJsWhitespace(s[i])
  }

  /** Drops the leading whitespace: the result is the suffix of `s` that
      starts at its first non-whitespace character. */
  function TrimStart(s: string): (r: string)
    ensures |r| <= |s| && r == s[|s| - |r|..]
    ensures forall i :: 0 <= i < |s| - |r| ==> IsJsWhitespace(s[i])
    ensures r == [] || !IsJsWhitespace(r[0])
  {
    if s != [] && IsJsWhitespace(s[0]) then TrimStart(s[1..]) else s
  }

  /** Drops the trailing whitespace: the result is the prefix of `s` that
      ends at its last non-whitespace character. */
  function TrimEnd(s: string): (r: string)
    ensures |r| <= |s| && r == s[..|r|]
    ensures forall i :: |r| <= i < |s| ==> IsJsWhitespace(s[i])
    ensures r == [] || !IsJsWhitespace(r[|r| - 1])
  {
    if s != [] && IsJsWhitespace(s[|s| - 1]) then TrimEnd(s[..|s| - 1]) else s
  }

  /** `s.trim()`: `TrimStart` then `TrimEnd`. The result is the slice of
      `s` left once the leading and the trailing whitespace are dropped:
      everything dropped is whitespace, and the result has whitespace at
      neither end. */
  function Trim(s: string): (r: string)
    ensures |r| <= |s|
    ensures var a := |s| - |TrimStart(s)|;
      && a + |r| <= |s| && r == s[a..a + |r|]
      && AllWhitespace(s[..a]) && AllWhitespace(s[a + |r|..])
    ensures r == [] || (!IsJsWhitespace(r[0]) && !IsJsWhitespace(r[|r| - 1]))
  {
    var r := TrimEnd(TrimStart(s));
    TrimSlice(s);
    r
  }

  /** `TrimEnd(TrimStart(s))` is a slice of `s` with only whitespace
      around it. */
  lemma {:induction false} TrimSlice(s: string)
    ensures var t := TrimStart(s); var r := TrimEnd(t); var a := |s| - |t|;
      && a + |r| <= |s| && r == s[a..a + |r|]
      && AllWhitespace(s[..a]) && AllWhitespace(s[a + |r|..])
      && (r == [] || (!IsJsWhitespace(r[0]) && !IsJsWhitespace(r[|r| - 1])))
  {
    var t := TrimStart(s);
    var r := TrimEnd(t);
    SliceOfSuffix(s, t, r);
    assert r != [] ==> r[0] == t[0];
  }

  /** A prefix `r` of a suffix `t` of `s`, with whitespace in front of `t`
      and behind `r`, is a slice of `s` with whitespace on both sides. */
  lemma SliceOfSuffix(s: string, t: string, r: string)
    requires |t| <= |s| && t == s[|s| - |t|..]
    requires |r| <= |t| && r == t[..|r|]
    requires forall i :: 0 <= i < |s| - |t| ==> IsJsWhitespace(s[i])
    requires forall i :: |r| <= i < |t| ==> IsJsWhitespace(t[i])
    ensures var a := |s| - |t|;
      && r == s[a..a + |r|] && AllWhitespace(s[..a]) && AllWhitespace(s[a + |r|..])
  {
    var a := |s| - |t|;
    assert s[a + |r|..] == t[|r|..];
  }

  /** A string is falsy after `trim()` exactly when every character of it is
      whitespace: this is what `if (!email.trim())` and
      `username.trim() && password.trim()` test. */
  lemma TrimEmptyIff(s: string)
    ensures Trim(s) == [] <==> AllWhitespace(s)
  {
    var t := TrimStart(s);
    if Trim(s) == [] {
      assert AllWhitespace(t);
      assert t == [];
      forall i | 0 <= i < |s| ensures IsJsWhitespace(s[i]) {
        assert i < |s| - |t|;
      }
    } else {
      assert t != [];
      assert !IsJsWhitespace(s[|s| - |t|]) by { assert t[0] == s[|s| - |t|]; }
    }
  }

  /** The UTF-16 code units of one character: a character outside the
      Basic Multilingual Plane is a surrogate pair. */
  function CodeUnits(c: char): nat {
    if c as int < 0x1_0000 then 1 else 2
  }

  /** `s.length`: the number of UTF-16 code units, between one and two
      per character, so zero only for the empty string. */
  function Length(s: string): (n: nat)
    ensures |s| <= n <= 2 * |s|
    ensures n == 0 <==> s == []
  {
    if s == [] then 0 else CodeUnits(s[0]) + Length(s[1..])
  }

  /** The length is the number of characters exactly when every character
      lies in the Basic Multilingual Plane. */
  lemma {:induction false} LengthIsSizeIff(s: string)
    ensures Length(s) == |s| <==> forall i :: 0 <= i < |s| ==> s[i] as int < 0x1_0000
  {
    if s != [] {
      LengthIsSizeIff(s[1..]);
      assert forall i :: 1 <= i < |s| ==> s[1..][i - 1] == s[i];
    }
  }

  /** The length of a concatenation is the sum of the lengths. */
  lemma {:induction false} LengthConcat(a: string, b: string)
    ensures Length(a + b) == Length(a) + Length(b)
  {
    if a == [] {
      assert a + b == b;
    } else {
      assert (a + b)[0] == a[0];
      assert (a + b)[1..] == a[1..] + b;
      LengthConcat(a[1..], b);
    }
  }

  /** Sum of the lengths of `parts`: zero exactly when every part is
      empty. */
  function SumLengths(parts: seq<string>): (n: nat)
    ensures n == 0 <==> forall i :: 0 <= i < |parts| ==> parts[i] == ""
  {
    if parts == [] then 0
    else
      var n := Length(parts[0]) + SumLengths(parts[1..]);
      assert forall i :: 1 <= i < |parts| ==> parts[1..][i - 1] == parts[i];
      n
  }

  /** `parts.join("")`: the parts concatenated in order, so the joined
      length is the sum of the parts' lengths, and one-character parts
      join into the string of those characters, in order. */
  function Join(parts: seq<string>): (r: string)
    ensures Length(r) == SumLengths(parts)
    ensures (forall i :: 0 <= i < |parts| ==> |parts[i]| == 1) ==>
              |r| == |parts| && forall i :: 0 <= i < |parts| ==> r[i] == parts[i][0]
  {
    if parts == [] then ""
    else
      var tail := parts[1..];
      var r := parts[0] + Join(tail);
      LengthConcat(parts[0], Join(tail));
      assert forall i :: 1 <= i < |parts| ==> parts[i] == tail[i - 1];
      r
  }

  /** When every part holds at most one code unit, the joined string is
      shorter than the number of parts exactly when some part is empty. */
  lemma {:induction false} JoinShortIff(parts: seq<string>)
    requires forall i :: 0 <= i < |parts| ==> Length(parts[i]) <= 1
    ensures Length(Join(parts)) < |parts| <==> exists i :: 0 <= i < |parts| && parts[i] == ""
  {
    if parts != [] {
      var tail := parts[1..];
      assert forall i :: 0 <= i < |tail| ==> tail[i] == parts[i + 1];
      JoinShortIff(tail);
      assert |tail| == |parts| - 1;
      assert Length(Join(parts)) == Length(parts[0]) + Length(Join(tail));
      if exists i :: 0 <= i < |tail| && tail[i] == "" {
        var i :| 0 <= i < |tail| && tail[i] == "";
        assert parts[i + 1] == "";
      }
      if exists i :: 0 <= i < |parts| && parts[i] == "" {
        var i :| 0 <= i < |parts| && parts[i] == "";
        if i > 0 { assert tail[i - 1] == ""; }
      }
      assert Length(Join(tail)) <= |tail| by { JoinAtMost(tail); }
    }
  }

  /** With parts of at most one code unit, the join is at most one code
      unit per part. */
  lemma {:induction false} JoinAtMost(parts: seq<string>)
    requires forall i :: 0 <= i < |parts| ==> Length(parts[i]) <= 1
    ensures Length(Join(parts)) <= |parts|
  {
    if parts != [] {
      var tail := parts[1..];
      assert forall i :: 0 <= i < |tail| ==> tail[i] == parts[i + 1];
      JoinAtMost(tail);
    }
  }
}
