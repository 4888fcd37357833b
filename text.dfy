/** String primitives the application borrows from Python's `str`: `strip`,
    `split`, `startswith`, `lower`, `isdigit` and the `in` substring test,
    each written over a declared character set, not full Unicode tables.
    `Join` is not used by the application; it serves to state results. */
module Text {

  /** The characters Python's `str.isspace` accepts, written out code point
      by code point; `str.strip()` with no argument removes exactly these. */
  predicate IsSpace(c: char) {
    || ('\t' <= c <= '\r')                   // tab, line feed, vertical tab, form feed, carriage return
    || ('\U{1C}' <= c <= '\U{20}')           // file/group/record/unit separators and space
    || c == '\U{85}' || c == '\U{A0}' || c == '\U{1680}'
    || ('\U{2000}' <= c <= '\U{200A}')
    || c == '\U{2028}' || c == '\U{2029}' || c == '\U{202F}' || c == '\U{205F}' || c == '\U{3000}'
  }

  /** `str.isdigit` restricted to the ASCII digits. */
  predicate IsDigit(c: char) {
    '0' <= c <= '9'
  }

  /** `str.lower` restricted to the ASCII capitals; every other character is kept. */
  function LowerChar(c: char): (d: char)
    ensures !('A' <= d <= 'Z')
    ensures 'A' <= c <= 'Z' ==> d as int == c as int + 32
    ensures !('A' <= c <= 'Z') ==> d == c
  {
    if 'A' <= c <= 'Z' then (c as int + 32) as char else c
  }

  function Lower(s: string): (r: string)
    ensures |r| == |s|
    ensures forall i :: 0 <= i < |s| ==> r[i] == LowerChar(s[i])
  {
    if s == [] then [] else [LowerChar(s[0])] + Lower(s[1..])
  }

  lemma {:induction false} LowerIdempotent(s: string)
    ensures Lower(Lower(s)) == Lower(s)
  {
    if s != [] {
      LowerIdempotent(s[1..]);
      assert Lower(s)[1..] == Lower(s[1..]);
    }
  }

  /** Every character of `s` is whitespace. */
  ghost predicate AllSpace(s: string) {
    forall i :: 0 <= i < |s| ==> IsSpace(s[i])
  }

  /** `s.lstrip()`: a suffix of `s` that starts with a non-space
      (`TrimStartDropsSpace` says that what it drops is whitespace). */
  function TrimStart(s: string): (r: string)
    ensures |r| <= |s| && r == s[|s| - |r|..]
    ensures r == [] || !IsSpace(r[0])
  {
    if s != [] && IsSpace(s[0]) then TrimStart(s[1..]) else s
  }

  lemma {:induction false} TrimStartDropsSpace(s: string)
    ensures AllSpace(s[..|s| - |TrimStart(s)|])
  {
    if s != [] && IsSpace(s[0]) {
      var r := TrimStart(s[1..]);
      TrimStartDropsSpace(s[1..]);
      assert s[..|s| - |r|] == [s[0]] + s[1..][..|s| - 1 - |r|];
    }
  }

  /** `s.rstrip()`: a prefix of `s` that ends with a non-space
      (`TrimEndDropsSpace` says that what it drops is whitespace). */
  function TrimEnd(s: string): (r: string)
    ensures |r| <= |s| && r == s[..|r|]
    ensures r == [] || !IsSpace(r[|r| - 1])
  {
    if s != [] && IsSpace(s[|s| - 1]) then TrimEnd(s[..|s| - 1]) else s
  }

  lemma {:induction false} TrimEndDropsSpace(s: string)
    ensures AllSpace(s[|TrimEnd(s)|..])
  {
    if s != [] && IsSpace(s[|s| - 1]) {
      var r := TrimEnd(s[..|s| - 1]);
      TrimEndDropsSpace(s[..|s| - 1]);
      assert s[|r|..] == s[..|s| - 1][|r|..] + [s[|s| - 1]];
    }
  }

  /** `r` is the slice of `s` at `lo`, and everything of `s` around it is whitespace. */
  ghost predicate StrippedAt(s: string, r: string, lo: int) {
    && 0 <= lo <= |s| - |r| && r == s[lo..lo + |r|]
    && AllSpace(s[..lo]) && AllSpace(s[lo + |r|..])
  }

  /** `s.strip()`: the longest slice of `s` that neither starts nor ends with
      whitespace (`StripSlice` says that what it drops is whitespace). */
  function Strip(s: string): (r: string)
    ensures |r| <= |s|
    ensures r == [] || (!IsSpace(r[0]) && !IsSpace(r[|r| - 1]))
  {
    var t := TrimStart(s);
    var r := TrimEnd(t);
    assert r != [] ==> r[0] == t[0];
    r
  }

  /** What strip removes is whitespace at both ends, and what it keeps is a slice of the input. */
  lemma StripSlice(s: string)
    ensures exists lo :: StrippedAt(s, Strip(s), lo)
  {
    var t := TrimStart(s);
    var r := TrimEnd(t);
    var lo := |s| - |t|;
    TrimStartDropsSpace(s);
    TrimEndDropsSpace(t);
    assert t == s[lo..];
    assert s[lo + |r|..] == t[|r|..];
    assert StrippedAt(s, r, lo);
    assert Strip(s) == r;
  }

  /** A string whose ends are not whitespace is its own strip. */
  lemma StripFixed(s: string)
    requires s == [] || (!IsSpace(s[0]) && !IsSpace(s[|s| - 1]))
    ensures Strip(s) == s
  {
    assert TrimStart(s) == s;
    assert TrimEnd(s) == s;
  }

  lemma StripIdempotent(s: string)
    ensures Strip(Strip(s)) == Strip(s)
  {
    StripFixed(Strip(s));
  }

  /** Stripping yields the empty string exactly when every character is whitespace. */
  lemma StripEmpty(s: string)
    ensures Strip(s) == "" <==> AllSpace(s)
  {
    var r := Strip(s);
    StripSlice(s);
    var lo :| StrippedAt(s, r, lo);
    if r != [] {
      assert r[0] == s[lo];
    } else {
      assert s == s[..lo] + s[lo..];
    }
  }

  /** `s.split(sep)`: the pieces between occurrences of `sep`; never an empty list. */
  function Split(s: string, sep: char): (parts: seq<string>)
    ensures |parts| >= 1
    ensures forall k :: 0 <= k < |parts| ==> sep !in parts[k]
  {
    if s == [] then [""]
    else
      var rest := Split(s[1..], sep);
      if s[0] == sep then [""] + rest
      else [[s[0]] + rest[0]] + rest[1..]
  }

  /** Splitting at the first separator peels off the text before it. */
  lemma {:induction false} SplitAtFirst(head: string, rest: string, sep: char)
    requires sep !in head
    ensures Split(head + [sep] + rest, sep) == [head] + Split(rest, sep)
  {
    if head != [] {
      assert (head + [sep] + rest)[1..] == head[1..] + [sep] + rest;
      SplitAtFirst(head[1..], rest, sep);
      assert [head[0]] + head[1..] == head;
    } else {
      assert head + [sep] + rest == [sep] + rest;
      assert ([sep] + rest)[1..] == rest;
    }
  }

  /** `sep.join(parts)`. */
  function Join(parts: seq<string>, sep: string): string {
    if parts == [] then ""
    else if |parts| == 1 then parts[0]
    else parts[0] + sep + Join(parts[1..], sep)
  }

  /** Joining the pieces of a split with the separator gives the original text back. */
  lemma {:induction false} JoinSplit(s: string, sep: char)
    ensures Join(Split(s, sep), [sep]) == s
  {
    if s != [] {
      var rest := Split(s[1..], sep);
      JoinSplit(s[1..], sep);
      if s[0] == sep {
        assert Split(s, sep) == [""] + rest;
        assert ([""] + rest)[1..] == rest;
      } else {
        var parts := [[s[0]] + rest[0]] + rest[1..];
        assert Split(s, sep) == parts;
        if |rest| == 1 {
          assert parts == [[s[0]] + rest[0]];
        } else {
          assert parts[1..] == rest[1..];
          assert Join(rest, [sep]) == rest[0] + [sep] + Join(rest[1..], [sep]);
        }
      }
    }
  }

  /** Appending one more piece adds the separator and that piece at the end. */
  lemma {:induction false} JoinSnoc(parts: seq<string>, p: string, sep: string)
    ensures Join(parts + [p], sep) == if parts == [] then p else Join(parts, sep) + sep + p
  {
    if |parts| == 1 {
      assert parts + [p] == [parts[0], p];
    } else if |parts| > 1 {
      assert (parts + [p])[1..] == parts[1..] + [p];
      JoinSnoc(parts[1..], p, sep);
    }
  }

  /** The join of non-empty pieces is empty only when there are no pieces. */
  lemma JoinNonEmpty(parts: seq<string>, sep: string)
    requires forall k :: 0 <= k < |parts| ==> parts[k] != ""
    ensures Join(parts, sep) == "" <==> parts == []
  {
    if |parts| > 1 {
      assert |Join(parts, sep)| >= |parts[0]|;
    }
  }

  predicate StartsWith(s: string, prefix: string) {
    |prefix| <= |s| && s[..|prefix|] == prefix
  }

  ghost predicate OccursAt(s: string, sub: string, i: int) {
    0 <= i <= |s| - |sub| && s[i..i + |sub|] == sub
  }

  /** Python's `sub in s` on strings. */
  function Contains(s: string, sub: string): (b: bool)
    ensures b <==> exists i :: OccursAt(s, sub, i)
  {
    if StartsWith(s, sub) then
      assert OccursAt(s, sub, 0);
      true
    else if s == [] then
      false
    else
      var b := Contains(s[1..], sub);
      assert forall i :: OccursAt(s[1..], sub, i) ==> OccursAt(s, sub, i + 1) by {
        forall i | OccursAt(s[1..], sub, i) ensures OccursAt(s, sub, i + 1) {
          assert s[i + 1..i + 1 + |sub|] == s[1..][i..i + |sub|];
        }
      }
      assert forall i :: OccursAt(s, sub, i) && i > 0 ==> OccursAt(s[1..], sub, i - 1) by {
        forall i | OccursAt(s, sub, i) && i > 0 ensures OccursAt(s[1..], sub, i - 1) {
          assert s[i..i + |sub|] == s[1..][i - 1..i - 1 + |sub|];
        }
      }
      b
  }

  /** Index of the first `c` in `s`. */
  function IndexOf(s: string, c: char): (i: nat)
    requires c in s
    ensures i < |s| && s[i] == c && c !in s[..i]
  {
    if s[0] == c then 0
    else
      var j := IndexOf(s[1..], c);
      assert s[..j + 1] == [s[0]] + s[1..][..j];
      j + 1
  }

  lemma AfterFirstOf(head: string, rest: string, c: char)
    requires c !in head
    ensures AfterFirst(head + [c] + rest, c) == rest
  {
    var s := head + [c] + rest;
    var i := IndexOf(s, c);
    assert s[|head|] == c;
  }

  /** `s.split(c, 1)[1]`: the text after the first `c` (`AfterFirstSplit` says so). */
  function AfterFirst(s: string, c: char): (r: string)
    requires c in s
    ensures |r| < |s|
  {
    s[IndexOf(s, c) + 1..]
  }

  lemma AfterFirstSplit(s: string, c: char)
    requires c in s
    ensures exists head :: c !in head && s == head + [c] + AfterFirst(s, c)
  {
    var i := IndexOf(s, c);
    assert s == s[..i] + [c] + s[i + 1..];
  }
}
