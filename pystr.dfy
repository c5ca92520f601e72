/**
  The three operations of Python's `str` that the run-directory naming uses:
  `rfind` of one character, `split` on a one-character separator and
  `sep.join(parts)` with a one-character separator.
 */
module PyStr {

  /** `s.rfind(c)`: the index of the last `c` in `s`, or -1 when there is none. */
  function RFind(s: string, c: char): (r: int)
    ensures -1 <= r < |s|
  {
    if |s| == 0 then -1
    else if s[|s| - 1] == c then |s| - 1
    else RFind(s[..|s| - 1], c)
  }

  /** The result of RFind, when not -1, holds `c`, and no `c` follows it. */
  lemma {:induction false} RFindSpec(s: string, c: char)
    ensures RFind(s, c) >= 0 ==> s[RFind(s, c)] == c
    ensures forall k :: RFind(s, c) < k < |s| ==> s[k] != c
    decreases |s|
  {
    if |s| > 0 && s[|s| - 1] != c {
      var init := s[..|s| - 1];
      RFindSpec(init, c);
      forall k | RFind(s, c) < k < |s| - 1 ensures s[k] != c {
        assert s[k] == init[k];
      }
    }
  }

  /** Those two facts determine the result of RFind. */
  lemma {:induction false} RFindUnique(s: string, c: char, r: int)
    requires -1 <= r < |s|
    requires r >= 0 ==> s[r] == c
    requires forall k :: r < k < |s| ==> s[k] != c
    ensures RFind(s, c) == r
    decreases |s|
  {
    if |s| > 0 && r < |s| - 1 {
      var init := s[..|s| - 1];
      forall k | r < k < |init| ensures init[k] != c {
        assert init[k] == s[k];
      }
      RFindUnique(init, c, r);
    }
  }

  /** Appending text free of `c` does not move the last `c`. */
  lemma RFindAppendFree(s: string, t: string, c: char)
    requires c !in t
    ensures RFind(s + t, c) == RFind(s, c)
  {
    var r := RFind(s, c);
    RFindSpec(s, c);
    forall k | r < k < |s + t| ensures (s + t)[k] != c {
      if k >= |s| {
        assert (s + t)[k] == t[k - |s|];
      }
    }
    RFindUnique(s + t, c, r);
  }

  /** The separator given explicitly is the last one when what follows it is free of it. */
  lemma RFindAtSeparator(x: string, c: char, y: string)
    requires c !in y
    ensures RFind(x + [c] + y, c) == |x|
  {
    var s := x + [c] + y;
    assert s[|x|] == c;
    assert s[|x| + 1..] == y;
    RFindUnique(s, c, |x|);
  }

  /** `s.split(sep)`: never empty; consecutive or trailing separators give empty parts. */
  function Split(s: string, sep: char): (parts: seq<string>)
    ensures |parts| >= 1
    decreases |s|
  {
    if |s| == 0 then [""]
    else
      var rest := Split(s[1..], sep);
      if s[0] == sep then [""] + rest
      else [[s[0]] + rest[0]] + rest[1..]
  }

  /** No part of a split holds the separator. */
  lemma {:induction false} SplitPartsFree(s: string, sep: char)
    ensures forall k :: 0 <= k < |Split(s, sep)| ==> sep !in Split(s, sep)[k]
    decreases |s|
  {
    if |s| > 0 {
      SplitPartsFree(s[1..], sep);
    }
  }

  /** `sep.join(parts)`. */
  function JoinWith(sep: char, parts: seq<string>): string
  {
    if |parts| == 0 then ""
    else if |parts| == 1 then parts[0]
    else parts[0] + [sep] + JoinWith(sep, parts[1..])
  }

  /** Joining the parts of a split with the same separator gives back the string. */
  lemma {:induction false} JoinSplit(s: string, sep: char)
    ensures JoinWith(sep, Split(s, sep)) == s
    decreases |s|
  {
    if |s| > 0 {
      var rest := Split(s[1..], sep);
      JoinSplit(s[1..], sep);
      if s[0] == sep {
        assert ([""] + rest)[1..] == rest;
      } else if |rest| > 1 {
        var parts := [[s[0]] + rest[0]] + rest[1..];
        assert parts[1..] == rest[1..];
        assert JoinWith(sep, rest) == rest[0] + [sep] + JoinWith(sep, rest[1..]);
      }
    }
  }

  /** Joining with one more part appends the separator and that part. */
  lemma {:induction false} JoinWithSnoc(sep: char, parts: seq<string>, last: string)
    requires |parts| >= 1
    ensures JoinWith(sep, parts + [last]) == JoinWith(sep, parts) + [sep] + last
    decreases |parts|
  {
    if |parts| > 1 {
      assert (parts + [last])[1..] == parts[1..] + [last];
      JoinWithSnoc(sep, parts[1..], last);
    }
  }

  /** A string without the separator splits into itself alone. */
  lemma {:induction false} SplitWithoutSeparator(s: string, sep: char)
    requires sep !in s
    ensures Split(s, sep) == [s]
    decreases |s|
  {
    if |s| > 0 {
      SplitWithoutSeparator(s[1..], sep);
      assert [s[0]] + s[1..] == s;
    }
  }

  /** A string with the separator splits into at least two parts. */
  lemma {:induction false} SplitWithSeparator(s: string, sep: char)
    requires sep in s
    ensures |Split(s, sep)| >= 2
    decreases |s|
  {
    if s[0] != sep {
      SplitWithSeparator(s[1..], sep);
    }
  }
}
