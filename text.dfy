/**
 * The Python string operations the bot relies on: `str.strip()`, `s.rsplit(c, 1)[-1]`,
 * `s.split(c)[0]`, `str.replace(old, new)` and, as an independent reference for the
 * latter, `str.split(sep)` and `sep.join(parts)`.
 */
module Text {

  /** Python's `str.isspace()` for one character: the characters `str.strip()` removes. */
  predicate IsSpace(c: char)
  {
    || '\t' <= c <= '\r'
    || '\U{1C}' <= c <= ' '
    || c == '\U{85}' || c == '\U{A0}' || c == '\U{1680}'
    || '\U{2000}' <= c <= '\U{200A}'
    || c == '\U{2028}' || c == '\U{2029}' || c == '\U{202F}' || c == '\U{205F}' || c == '\U{3000}'
  }

  predicate AllSpace(s: string)
  {
    forall i :: 0 <= i < |s| ==> IsSpace(s[i])
  }

  /** True when `s` neither starts nor ends with whitespace. */
  predicate Trimmed(s: string)
  {
    s == [] || (!IsSpace(s[0]) && !IsSpace(s[|s| - 1]))
  }

  /** Leading whitespace removed: a suffix of `s`, preceded only by whitespace. */
  function TrimStart(s: string): (r: string)
    ensures |r| <= |s| && r == s[|s| - |r|..]
    ensures AllSpace(s[..|s| - |r|])
    ensures r == [] || !IsSpace(r[0])
    decreases |s|
  {
    if |s| > 0 && IsSpace(s[0]) then TrimStart(s[1..]) else s
  }

  /** Trailing whitespace removed: a prefix of `s`, followed only by whitespace. */
  function TrimEnd(s: string): (r: string)
    ensures |r| <= |s| && r == s[..|r|]
    ensures AllSpace(s[|r|..])
    ensures r == [] || !IsSpace(r[|r| - 1])
    decreases |s|
  {
    if |s| > 0 && IsSpace(s[|s| - 1]) then
      var r := TrimEnd(s[..|s| - 1]);
      assert s[|r|..] == s[..|s| - 1][|r|..] + [s[|s| - 1]];
      r
    else s
  }

  /** `r` is the slice of `s` at index `i`, with only whitespace before and after it. */
  predicate SpacedSlice(s: string, r: string, i: int)
  {
    0 <= i <= |s| - |r| && r == s[i..i + |r|] && AllSpace(s[..i]) && AllSpace(s[i + |r|..])
  }

  /** A prefix of a suffix, each cut off from whitespace only, is a slice with only whitespace around it. */
  lemma SliceOfSlice(s: string, t: string, r: string)
    requires |t| <= |s| && t == s[|s| - |t|..] && AllSpace(s[..|s| - |t|])
    requires |r| <= |t| && r == t[..|r|] && AllSpace(t[|r|..])
    ensures SpacedSlice(s, r, |s| - |t|)
  {
    var i := |s| - |t|;
    assert s[i + |r|..] == t[|r|..];
  }

  /** Trimming both ends of `s` leaves the slice that starts after the leading whitespace. */
  lemma TrimBothSlice(s: string)
    ensures SpacedSlice(s, TrimEnd(TrimStart(s)), |s| - |TrimStart(s)|)
  {
    SliceOfSlice(s, TrimStart(s), TrimEnd(TrimStart(s)));
  }

  /** `s.strip()`: whitespace removed from both ends; what is left is a slice of `s` with only whitespace around it. */
  function Strip(s: string): (r: string)
    ensures Trimmed(r)
    ensures |r| <= |s|
    ensures exists i :: SpacedSlice(s, r, i)
  {
    TrimBothSlice(s);
    TrimEnd(TrimStart(s))
  }

  /** A string with no whitespace at either end is its own `strip()`. */
  lemma StripTrimmed(s: string)
    requires Trimmed(s)
    ensures Strip(s) == s
  {
    assert TrimStart(s) == s;
  }

  /** `strip()` is idempotent, so `normalize(raw.strip())` sees what `normalize(raw)` sees. */
  lemma StripIdempotent(s: string)
    ensures Strip(Strip(s)) == Strip(s)
  {
    StripTrimmed(Strip(s));
  }

  /** `s.rsplit(c, 1)[-1]`: the longest suffix of `s` that does not contain `c`. */
  function AfterLast(s: string, c: char): (r: string)
    ensures c !in r
    ensures |r| <= |s| && r == s[|s| - |r|..]
    ensures |r| < |s| ==> s[|s| - |r| - 1] == c
    decreases |s|
  {
    if |s| == 0 then ""
    else if s[|s| - 1] == c then ""
    else
      var p := s[..|s| - 1];
      var r := AfterLast(p, c);
      assert s[|s| - |r| - 1..] == p[|p| - |r|..] + [s[|s| - 1]];
      r + [s[|s| - 1]]
  }

  /** `s.split(c)[0]`: the longest prefix of `s` that does not contain `c`. */
  function BeforeFirst(s: string, c: char): (r: string)
    ensures c !in r
    ensures |r| <= |s| && r == s[..|r|]
    ensures |r| < |s| ==> s[|r|] == c
    decreases |s|
  {
    if |s| == 0 then ""
    else if s[0] == c then ""
    else [s[0]] + BeforeFirst(s[1..], c)
  }

  /** A suffix free of `c` that follows a `c` (or is all of `s`) is what `AfterLast` returns. */
  lemma AfterLastUnique(prefix: string, c: char, tail: string)
    requires c !in tail
    ensures AfterLast(prefix + [c] + tail, c) == tail
    decreases |tail|
  {
    var s := prefix + [c] + tail;
    if tail != [] {
      assert s[..|s| - 1] == prefix + [c] + tail[..|tail| - 1];
      AfterLastUnique(prefix, c, tail[..|tail| - 1]);
    }
  }

  /** Whether `p` occurs in `s` at some position. */
  predicate Occurs(s: string, p: string)
    decreases |s|
  {
    |p| <= |s| && (s[..|p|] == p || Occurs(s[1..], p))
  }

  /** A pattern that starts with a character absent from `s` does not occur in `s`. */
  lemma {:induction false} AbsentFirstChar(s: string, p: string)
    requires p != [] && p[0] !in s
    ensures !Occurs(s, p)
    decreases |s|
  {
    if |p| <= |s| {
      assert s[..|p|][0] == s[0];
      assert s[0] in s;
      assert forall c :: c in s[1..] ==> c in s;
      AbsentFirstChar(s[1..], p);
    }
  }

  /**
   * `s.replace(p, r)`: scanning left to right, each non-overlapping occurrence of `p`
   * is replaced by `r`; the scan resumes after the replaced occurrence, so text that
   * `r` brings in is never rescanned.
   */
  function ReplaceAll(s: string, p: string, r: string): string
    requires p != []
    decreases |s|
  {
    if |s| < |p| then s
    else if s[..|p|] == p then r + ReplaceAll(s[|p|..], p, r)
    else [s[0]] + ReplaceAll(s[1..], p, r)
  }

  /** A string in which the pattern does not occur is returned unchanged. */
  lemma {:induction false} ReplaceAllAbsent(s: string, p: string, r: string)
    requires p != [] && !Occurs(s, p)
    ensures ReplaceAll(s, p, r) == s
    decreases |s|
  {
    if |s| >= |p| {
      ReplaceAllAbsent(s[1..], p, r);
    }
  }

  /** Replacing a pattern by itself changes nothing. */
  lemma {:induction false} ReplaceAllSelf(s: string, p: string)
    requires p != []
    ensures ReplaceAll(s, p, p) == s
    decreases |s|
  {
    if |s| < |p| {
    } else if s[..|p|] == p {
      ReplaceAllSelf(s[|p|..], p);
      assert s == s[..|p|] + s[|p|..];
    } else {
      ReplaceAllSelf(s[1..], p);
      assert s == [s[0]] + s[1..];
    }
  }

  /**
   * `s.split(sep)`: the pieces between the non-overlapping occurrences of `sep`,
   * found left to right. The first piece is a prefix of `s`.
   */
  function Split(s: string, sep: string): (parts: seq<string>)
    requires sep != []
    ensures |parts| >= 1
    ensures parts[0] <= s
    decreases |s|
  {
    if |s| < |sep| then [s]
    else if s[..|sep|] == sep then [""] + Split(s[|sep|..], sep)
    else
      var rest := Split(s[1..], sep);
      [[s[0]] + rest[0]] + rest[1..]
  }

  /** `sep.join(parts)`. */
  function Join(parts: seq<string>, sep: string): string
    requires |parts| >= 1
    decreases |parts|
  {
    if |parts| == 1 then parts[0] else parts[0] + sep + Join(parts[1..], sep)
  }

  lemma JoinConsHead(c: char, parts: seq<string>, sep: string)
    requires |parts| >= 1
    ensures Join([[c] + parts[0]] + parts[1..], sep) == [c] + Join(parts, sep)
  {
    var q := [[c] + parts[0]] + parts[1..];
    if |parts| > 1 {
      assert q[1..] == parts[1..];
    }
  }

  /** `s.replace(p, r)` is `r.join(s.split(p))`: replacement cuts `s` at exactly the pieces split finds. */
  lemma {:induction false} ReplaceAllIsJoinOfSplit(s: string, p: string, r: string)
    requires p != []
    ensures ReplaceAll(s, p, r) == Join(Split(s, p), r)
    decreases |s|
  {
    if |s| < |p| {
    } else if s[..|p|] == p {
      ReplaceAllIsJoinOfSplit(s[|p|..], p, r);
      var rest := Split(s[|p|..], p);
      assert ([""] + rest)[1..] == rest;
    } else {
      ReplaceAllIsJoinOfSplit(s[1..], p, r);
      JoinConsHead(s[0], Split(s[1..], p), r);
    }
  }

  /** Joining the pieces of a split with the separator gives back the string. */
  lemma SplitJoinRoundTrip(s: string, sep: string)
    requires sep != []
    ensures Join(Split(s, sep), sep) == s
  {
    ReplaceAllIsJoinOfSplit(s, sep, sep);
    ReplaceAllSelf(s, sep);
  }

  /** No piece of a split contains the separator. */
  lemma {:induction false} SplitPiecesAreFree(s: string, sep: string)
    requires sep != []
    ensures forall i :: 0 <= i < |Split(s, sep)| ==> !Occurs(Split(s, sep)[i], sep)
    decreases |s|
  {
    var parts := Split(s, sep);
    if |s| < |sep| {
      assert |parts[0]| < |sep|;
    } else if s[..|sep|] == sep {
      SplitPiecesAreFree(s[|sep|..], sep);
      var rest := Split(s[|sep|..], sep);
      assert parts == [""] + rest;
      forall i | 0 <= i < |parts| ensures !Occurs(parts[i], sep) {
        if i > 0 { assert parts[i] == rest[i - 1]; }
      }
    } else {
      SplitPiecesAreFree(s[1..], sep);
      var rest := Split(s[1..], sep);
      var head := [s[0]] + rest[0];
      assert parts == [head] + rest[1..];
      assert head <= s;
      if |sep| <= |head| {
        assert head[..|sep|] == s[..|sep|];
        assert head[1..] == rest[0];
      }
      assert !Occurs(head, sep);
      forall i | 0 <= i < |parts| ensures !Occurs(parts[i], sep) {
        if i > 0 { assert parts[i] == rest[i]; }
      }
    }
  }
}
