/**
 * The handful of Python `str` operations the channel surfer relies on, written out
 * over `seq<char>`: `strip()`, `split(sep)`, `sep.join(parts)`, the substring test
 * `pattern in text`, and `replace(c, '')` for a single character `c`.
 */
module Strings {

  /** Python's `str.isspace()` for one character: exactly the characters `str.strip()` removes. */
  predicate IsSpace(c: char) {
    var k := c as int;
    || (9 <= k <= 13)
    || (28 <= k <= 32)
    || k == 0x85 || k == 0xA0 || k == 0x1680
    || (0x2000 <= k <= 0x200A)
    || k == 0x2028 || k == 0x2029 || k == 0x202F || k == 0x205F || k == 0x3000
  }

  /** The number of whitespace characters `s` starts with. */
  function LeadingSpaces(s: string): (n: nat)
    ensures n <= |s|
    ensures forall k :: 0 <= k < n ==> IsSpace(s[k])
    ensures n < |s| ==> !IsSpace(s[n])
  {
    if s != [] && IsSpace(s[0]) then 1 + LeadingSpaces(s[1..]) else 0
  }

  /** The number of whitespace characters `s` ends with. */
  function TrailingSpaces(s: string): (n: nat)
    ensures n <= |s|
    ensures forall k :: |s| - n <= k < |s| ==> IsSpace(s[k])
    ensures n < |s| ==> !IsSpace(s[|s| - n - 1])
  {
    if s != [] && IsSpace(s[|s| - 1]) then 1 + TrailingSpaces(s[..|s| - 1]) else 0
  }

  /**
   * `s.strip()`: the result is the slice of `s` that is left once every leading and every
   * trailing whitespace character is gone; it neither starts nor ends with whitespace.
   */
  function Strip(s: string): (r: string)
    ensures r == [] || (!IsSpace(r[0]) && !IsSpace(r[|r| - 1]))
    ensures var i := LeadingSpaces(s);
      && i + |r| <= |s|
      && r == s[i..i + |r|]
      && (forall k :: 0 <= k < i ==> IsSpace(s[k]))
      && (forall k :: i + |r| <= k < |s| ==> IsSpace(s[k]))
  {
    var i := LeadingSpaces(s);
    var n := TrailingSpaces(s[i..]);
    StripBounds(s, i, n);
    s[i..|s| - n]
  }

  /**
   * Given `i` leading whitespace characters and `n` trailing ones in what follows them, the
   * trailing ones are trailing whitespace of `s`, and what lies between neither starts nor ends
   * with whitespace.
   */
  lemma StripBounds(s: string, i: nat, n: nat)
    requires i <= |s| && n <= |s| - i
    requires i < |s| ==> !IsSpace(s[i])
    requires forall k :: |s| - i - n <= k < |s| - i ==> IsSpace(s[i..][k])
    requires n < |s| - i ==> !IsSpace(s[i..][|s| - i - n - 1])
    ensures i <= |s| - n
    ensures i < |s| - n ==> !IsSpace(s[i]) && !IsSpace(s[|s| - n - 1])
    ensures forall k :: |s| - n <= k < |s| ==> IsSpace(s[k])
  {
    var rest := s[i..];
    if i < |s| {
      assert !IsSpace(rest[0]);
    }
    forall k | |s| - n <= k < |s|
      ensures IsSpace(s[k])
    {
      assert s[k] == rest[k - i];
    }
  }

  /** Stripping is idempotent: a stripped string has nothing left to strip. */
  lemma StripIdempotent(s: string)
    ensures Strip(Strip(s)) == Strip(s)
  {
  }

  /** `sep.join(parts)` for a one-character separator; joining nothing gives the empty string. */
  function Join(parts: seq<string>, sep: char): string
  {
    if |parts| == 0 then ""
    else if |parts| == 1 then parts[0]
    else parts[0] + [sep] + Join(parts[1..], sep)
  }

  /**
   * `s.split(sep)`: the pieces between separators, empty ones included; there is always at
   * least one piece (`"".split(",") == [""]`) and no piece holds the separator.
   */
  function Split(s: string, sep: char): (parts: seq<string>)
    ensures |parts| >= 1
    ensures forall i :: 0 <= i < |parts| ==> sep !in parts[i]
  {
    if s == [] then [""]
    else
      var rest := Split(s[1..], sep);
      if s[0] == sep then [""] + rest
      else [[s[0]] + rest[0]] + rest[1..]
  }

  /** Joining the pieces of a split with the same separator gives back the original string. */
  lemma {:induction false} JoinSplit(s: string, sep: char)
    ensures Join(Split(s, sep), sep) == s
  {
    if s != [] {
      var rest := Split(s[1..], sep);
      JoinSplit(s[1..], sep);
      if s[0] != sep {
        var parts := [[s[0]] + rest[0]] + rest[1..];
        assert parts[1..] == rest[1..];
        if |rest| > 1 {
          assert Join(rest, sep) == rest[0] + [sep] + Join(rest[1..], sep);
        }
      }
    }
  }

  /**
   * Splitting a join recovers the parts, provided there is at least one part and no part
   * holds the separator.
   */
  lemma {:induction false} SplitJoin(parts: seq<string>, sep: char)
    requires |parts| >= 1
    requires forall i :: 0 <= i < |parts| ==> sep !in parts[i]
    ensures Split(Join(parts, sep), sep) == parts
  {
    if |parts| == 1 {
      SplitWithoutSeparator(parts[0], sep);
    } else {
      SplitJoin(parts[1..], sep);
      SplitPrefix(parts[0], Join(parts[1..], sep), sep);
      assert parts == [parts[0]] + parts[1..];
    }
  }

  /** A string without the separator splits into itself alone. */
  lemma {:induction false} SplitWithoutSeparator(s: string, sep: char)
    requires sep !in s
    ensures Split(s, sep) == [s]
  {
    if s != [] {
      SplitWithoutSeparator(s[1..], sep);
      assert [s[0]] + s[1..] == s;
    }
  }

  /** A separator-free head followed by a separator contributes exactly one piece. */
  lemma {:induction false} SplitPrefix(head: string, tail: string, sep: char)
    requires sep !in head
    ensures Split(head + [sep] + tail, sep) == [head] + Split(tail, sep)
  {
    if head == [] {
      assert head + [sep] + tail == [sep] + tail;
      assert ([sep] + tail)[1..] == tail;
    } else {
      var s := head + [sep] + tail;
      assert s[1..] == head[1..] + [sep] + tail;
      SplitPrefix(head[1..], tail, sep);
      assert [head[0]] + head[1..] == head;
    }
  }

  /** Joining two non-empty lists joins their joins with one more separator. */
  lemma {:induction false} JoinAppend(a: seq<string>, b: seq<string>, sep: char)
    requires |a| >= 1 && |b| >= 1
    ensures Join(a + b, sep) == Join(a, sep) + [sep] + Join(b, sep)
  {
    if |a| > 1 {
      JoinAppend(a[1..], b, sep);
      assert (a + b)[1..] == a[1..] + b;
    } else {
      assert (a + b)[1..] == b;
    }
  }

  /** Three parts join into the first, a separator, the second, a separator and the third. */
  lemma JoinThree(parts: seq<string>, sep: char)
    requires |parts| == 3
    ensures Join(parts, sep) == parts[0] + [sep] + parts[1] + [sep] + parts[2]
  {
    var tail := parts[1..];
    assert tail[0] == parts[1] && tail[1..] == parts[2..];
    assert Join(parts[2..], sep) == parts[2];
    assert Join(parts, sep) == parts[0] + [sep] + (parts[1] + [sep] + parts[2]);
  }

  /** Every character of a join is the separator or a character of one of the parts. */
  lemma {:induction false} JoinChars(parts: seq<string>, sep: char, c: char)
    requires c != sep
    requires forall i :: 0 <= i < |parts| ==> c !in parts[i]
    ensures c !in Join(parts, sep)
  {
    if |parts| > 1 {
      JoinChars(parts[1..], sep, c);
    }
  }

  /** Python's `pattern in text` for strings: `pattern` occurs as a contiguous slice of `text`. */
  predicate Contains(text: string, pattern: string) {
    exists i | 0 <= i <= |text| - |pattern| :: OccursAt(text, pattern, i)
  }

  /** `pattern` is the slice of `text` that starts at index `i`. */
  predicate OccursAt(text: string, pattern: string, i: int) {
    0 <= i <= |text| - |pattern| && text[i..i + |pattern|] == pattern
  }

  /** A string occurs in any text built around it. */
  lemma ContainsInfix(before: string, pattern: string, after: string)
    ensures Contains(before + pattern + after, pattern)
  {
    var text := before + pattern + after;
    assert OccursAt(text, pattern, |before|);
  }

  /** A pattern holding a character the text lacks does not occur in it. */
  lemma NotContainsMissingChar(text: string, pattern: string, c: char)
    requires c in pattern && c !in text
    ensures !Contains(text, pattern)
  {
  }

  /**
   * `s.replace(c, '')` for a single character `c`: every occurrence of `c` is dropped, every
   * other character is kept, in order.
   */
  function Without(s: string, c: char): (r: string)
    ensures c !in r
    ensures forall x :: x in r <==> x in s && x != c
    ensures c !in s ==> r == s
    ensures |r| == |s| - multiset(s)[c]
  {
    if s == [] then ""
    else
      assert s == [s[0]] + s[1..];
      if s[0] == c then Without(s[1..], c) else [s[0]] + Without(s[1..], c)
  }

  /** Dropping a character distributes over concatenation: order and every other character are kept. */
  lemma {:induction false} WithoutAppend(a: string, b: string, c: char)
    ensures Without(a + b, c) == Without(a, c) + Without(b, c)
  {
    if a == [] {
      assert a + b == b;
    } else {
      assert (a + b)[0] == a[0] && (a + b)[1..] == a[1..] + b;
      WithoutAppend(a[1..], b, c);
    }
  }

  /** On one character: `c` itself disappears, any other character stays. */
  lemma WithoutSingle(x: char, c: char)
    ensures Without([x], c) == if x == c then [] else [x]
  {
    assert [x][1..] == [];
  }
}
