/** The `String.prototype` methods the storefront relies on. */
module Strings {
  import opened Wrappers

  /** `pat` appears in `s` starting at index `i`. */
  predicate OccursAt(s: string, pat: string, i: nat) {
    i + |pat| <= |s| && s[i..i + |pat|] == pat
  }

  /** The scan behind `indexOf`: the first index from `from` on at which
      `pat` appears. */
  function IndexFrom(s: string, pat: string, from: nat): (r: Option<nat>)
    requires from <= |s|
    ensures r.Some? ==> from <= r.value && OccursAt(s, pat, r.value)
    decreases |s| - from
  {
    if OccursAt(s, pat, from) then Some(from)
    else if from == |s| then None
    else IndexFrom(s, pat, from + 1)
  }

  /** `indexOf`; `IndexOfFirst` shows the index is the first occurrence, and
      that None means `pat` appears nowhere. */
  function IndexOf(s: string, pat: string): (r: Option<nat>)
    ensures r.Some? ==> OccursAt(s, pat, r.value)
  {
    IndexFrom(s, pat, 0)
  }

  /** The scan skips no occurrence. */
  lemma {:induction false} IndexFromFirst(s: string, pat: string, from: nat)
    requires from <= |s|
    ensures IndexFrom(s, pat, from).Some? ==>
              forall j :: from <= j < IndexFrom(s, pat, from).value ==> !OccursAt(s, pat, j)
    ensures IndexFrom(s, pat, from).None? ==> forall j :: from <= j <= |s| ==> !OccursAt(s, pat, j)
    decreases |s| - from
  {
    if !OccursAt(s, pat, from) && from < |s| {
      IndexFromFirst(s, pat, from + 1);
    }
  }

  /** `IndexOf` finds the first occurrence, and finds nothing only when there is none. */
  lemma IndexOfFirst(s: string, pat: string)
    ensures IndexOf(s, pat).Some? ==> forall j :: 0 <= j < IndexOf(s, pat).value ==> !OccursAt(s, pat, j)
    ensures IndexOf(s, pat).None? ==> forall j :: 0 <= j <= |s| ==> !OccursAt(s, pat, j)
  {
    IndexFromFirst(s, pat, 0);
  }

  /** A pattern whose first character is absent from `s` does not occur in it. */
  lemma IndexOfAbsentFirstChar(s: string, pat: string)
    requires |pat| > 0 && pat[0] !in s
    ensures IndexOf(s, pat).None?
  {
  }

  /** A one-character pattern occurs exactly where that character does. */
  lemma IndexOfChar(s: string, c: char)
    ensures IndexOf(s, [c]).None? <==> c !in s
  {
    IndexOfFirst(s, [c]);
    if c in s {
      var j :| 0 <= j < |s| && s[j] == c;
      assert s[j..j + 1] == [c];
      assert OccursAt(s, [c], j);
    } else {
      forall i | 0 <= i <= |s| ensures !OccursAt(s, [c], i) {
        if i < |s| {
          assert s[i..i + 1][0] == s[i];
        }
      }
    }
  }

  /** The inverse of `Split`: the parts with the separator between them. */
  function Join(parts: seq<string>, sep: string): string
    requires |parts| > 0
  {
    if |parts| == 1 then parts[0] else parts[0] + sep + Join(parts[1..], sep)
  }

  /** `split` with a non-empty string separator: cut at every occurrence,
      scanning left to right without overlap. */
  function Split(s: string, sep: string): (parts: seq<string>)
    requires |sep| > 0
    ensures |parts| > 0
    ensures IndexOf(s, sep).None? <==> |parts| == 1
    decreases |s|
  {
    match IndexOf(s, sep)
    case None => [s]
    case Some(i) => [s[..i]] + Split(s[i + |sep|..], sep)
  }

  /** One step of `Split` at the first occurrence. */
  lemma {:induction false} SplitStep(s: string, sep: string)
    requires |sep| > 0 && IndexOf(s, sep).Some?
    ensures IndexOf(s, sep).value + |sep| <= |s|
    ensures s[IndexOf(s, sep).value..IndexOf(s, sep).value + |sep|] == sep
    ensures Split(s, sep) == [s[..IndexOf(s, sep).value]] + Split(s[IndexOf(s, sep).value + |sep|..], sep)
  {
  }

  /** `Join` on a sequence with a first part and at least one more. */
  lemma JoinCons(x: string, rest: seq<string>, sep: string)
    requires |rest| > 0
    ensures Join([x] + rest, sep) == x + sep + Join(rest, sep)
  {
    assert ([x] + rest)[1..] == rest;
  }

  /** Joining the parts with the separator gives back the string. */
  lemma {:induction false} SplitJoin(s: string, sep: string)
    requires |sep| > 0
    ensures Join(Split(s, sep), sep) == s
    decreases |s|
  {
    if IndexOf(s, sep).Some? {
      var i := IndexOf(s, sep).value;
      var rest := s[i + |sep|..];
      SplitStep(s, sep);
      SplitJoin(rest, sep);
      JoinCons(s[..i], Split(rest, sep), sep);
      SlicesConcat(s, i, i + |sep|);
    }
  }

  /** Three consecutive slices make up the whole. */
  lemma SlicesConcat(s: string, i: nat, j: nat)
    requires i <= j <= |s|
    ensures s[..i] + s[i..j] + s[j..] == s
  {
  }

  /** A split gives exactly two parts when the separator occurs and does not
      occur again after its first occurrence; the second part is then all
      the text after that first occurrence. */
  lemma {:induction false} SplitTwo(s: string, sep: string)
    requires |sep| > 0
    ensures |Split(s, sep)| == 2 <==>
              IndexOf(s, sep).Some? && IndexOf(s[IndexOf(s, sep).value + |sep|..], sep).None?
    ensures |Split(s, sep)| == 2 ==> Split(s, sep)[1] == s[IndexOf(s, sep).value + |sep|..]
  {
    if IndexOf(s, sep).Some? {
      var i := IndexOf(s, sep).value;
      var tail := s[i + |sep|..];
      SplitStep(s, sep);
      if IndexOf(tail, sep).None? {
        SplitNone(tail, sep);
      }
    } else {
      SplitNone(s, sep);
    }
  }

  /** Without an occurrence, `Split` gives the whole string as its one part. */
  lemma SplitNone(s: string, sep: string)
    requires |sep| > 0 && IndexOf(s, sep).None?
    ensures Split(s, sep) == [s]
  {
  }

  /** The text before the first occurrence holds no occurrence. */
  lemma {:induction false} BeforeFirstClean(s: string, sep: string, i: nat)
    requires |sep| > 0 && IndexOf(s, sep) == Some(i)
    ensures IndexOf(s[..i], sep).None?
  {
    IndexOfFirst(s, sep);
    IndexOfFirst(s[..i], sep);
    forall j | 0 <= j <= i ensures !OccursAt(s[..i], sep, j) {
      assert !OccursAt(s, sep, j) || j == i;
      if j + |sep| <= i {
        assert s[..i][j..j + |sep|] == s[j..j + |sep|];
      }
    }
  }

  /** No part contains the separator. */
  predicate PartsClean(parts: seq<string>, sep: string) {
    forall k :: 0 <= k < |parts| ==> IndexOf(parts[k], sep).None?
  }

  /** Every part `Split` returns is free of the separator. */
  lemma {:induction false} SplitPartsClean(s: string, sep: string)
    requires |sep| > 0
    ensures PartsClean(Split(s, sep), sep)
    decreases |s|
  {
    if IndexOf(s, sep).Some? {
      SplitCleanStep(s, sep);
      SplitPartsClean(s[IndexOf(s, sep).value + |sep|..], sep);
    } else {
      SplitNone(s, sep);
    }
  }

  lemma SplitCleanStep(s: string, sep: string)
    requires |sep| > 0 && IndexOf(s, sep).Some?
    ensures IndexOf(s, sep).value + |sep| <= |s|
    ensures PartsClean(Split(s[IndexOf(s, sep).value + |sep|..], sep), sep) ==> PartsClean(Split(s, sep), sep)
  {
    var i := IndexOf(s, sep).value;
    var tail := s[i + |sep|..];
    SplitStep(s, sep);
    BeforeFirstClean(s, sep, i);
    if PartsClean(Split(tail, sep), sep) {
      CleanCons(s[..i], Split(tail, sep), sep);
    }
  }

  /** A clean first part in front of clean parts leaves every part clean. */
  lemma CleanCons(x: string, rest: seq<string>, sep: string)
    requires IndexOf(x, sep).None? && PartsClean(rest, sep)
    ensures PartsClean([x] + rest, sep)
  {
    forall k | 0 < k < |[x] + rest| ensures IndexOf(([x] + rest)[k], sep).None? {
      assert ([x] + rest)[k] == rest[k - 1];
    }
  }

  /** `trim` and its halves strip the ECMAScript whitespace and line terminators. */
  predicate IsWhitespace(c: char) {
    c == ' ' || c == '\t' || c == '\n' || c == '\r' || c == '\U{000B}' || c == '\U{000C}' ||
    c == '\U{00A0}' || c == '\U{1680}' || ('\U{2000}' <= c <= '\U{200A}') ||
    c == '\U{2028}' || c == '\U{2029}' || c == '\U{202F}' || c == '\U{205F}' ||
    c == '\U{3000}' || c == '\U{FEFF}'
  }

  predicate AllWhitespace(s: string) {
    forall i :: 0 <= i < |s| ==> IsWhitespace(s[i])
  }

  function TrimStart(s: string): (r: string)
    ensures r == "" <==> AllWhitespace(s)
    ensures r != "" ==> !IsWhitespace(r[0])
    ensures |r| <= |s| && r == s[|s| - |r|..]
    ensures AllWhitespace(s[..|s| - |r|])
  {
    if s == [] then s
    else if IsWhitespace(s[0]) then
      var r := TrimStart(s[1..]);
      assert AllWhitespace(s) <==> AllWhitespace(s[1..]) by {
        assert forall i :: 1 <= i < |s| ==> s[i] == s[1..][i - 1];
      }
      assert s[..|s| - |r|] == [s[0]] + s[1..][..|s[1..]| - |r|];
      r
    else s
  }

  function TrimEnd(s: string): (r: string)
    ensures r == "" <==> AllWhitespace(s)
    ensures r <= s
    ensures r != "" ==> !IsWhitespace(r[|r| - 1])
    ensures AllWhitespace(s[|r|..])
  {
    if s == [] then s
    else if IsWhitespace(s[|s| - 1]) then
      var r := TrimEnd(s[..|s| - 1]);
      assert AllWhitespace(s) <==> AllWhitespace(s[..|s| - 1]) by {
        assert forall i :: 0 <= i < |s| - 1 ==> s[i] == s[..|s| - 1][i];
      }
      assert s[|r|..] == s[..|s| - 1][|r|..] + [s[|s| - 1]];
      r
    else s
  }

  /** `trim`: the text with its leading and trailing whitespace removed, so
      neither end of a non-empty result is whitespace. */
  function Trim(s: string): (r: string)
    ensures |r| <= |s|
    ensures exists i, j :: 0 <= i <= j <= |s| && r == s[i..j] && AllWhitespace(s[..i]) && AllWhitespace(s[j..])
    ensures r != "" ==> !IsWhitespace(r[0]) && !IsWhitespace(r[|r| - 1])
  {
    var t := TrimStart(s);
    var r := TrimEnd(t);
    var i, j := |s| - |t|, |s| - |t| + |r|;
    assert r == s[i..j] && s[j..] == t[|r|..];
    r
  }

  /** A string trims to nothing exactly when every character is whitespace. */
  lemma TrimEmpty(s: string)
    ensures Trim(s) == "" <==> AllWhitespace(s)
  {
    var t := TrimStart(s);
    if t != "" {
      assert !IsWhitespace(t[0]);
      assert !AllWhitespace(t);
    }
  }

  /** `toUpperCase` on one character, for the ASCII letters. */
  function ToUpper(c: char): (u: char)
    ensures 'a' <= c <= 'z' ==> 'A' <= u <= 'Z' && u as int == c as int - 32
    ensures !('a' <= c <= 'z') ==> u == c
  {
    if 'a' <= c <= 'z' then (c as int - 32) as char else c
  }

  /** `s.charAt(0).toUpperCase() + s.slice(1)`. */
  function Capitalize(s: string): (r: string)
    ensures |r| == |s|
    ensures s != "" ==> r[0] == ToUpper(s[0]) && r[1..] == s[1..]
  {
    if s == "" then "" else [ToUpper(s[0])] + s[1..]
  }
}
