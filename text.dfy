/**
 * The string operations of Python that the plugin's callbacks use, with
 * Python's semantics: `str.split` on one separator character, `str.join`,
 * `str.strip()` without arguments, `str.startswith`, the substring test
 * `sub in s`, `str.replace` of one character by another and `str.lower()`
 * restricted to ASCII letters.
 */
module Text {

  type String = seq<char>

  /** Python's `str.isspace()` for a single character. */
  predicate IsSpace(c: char) {
    var n := c as int;
    (9 <= n <= 13) || (28 <= n <= 32) || n == 0x85 || n == 0xA0 || n == 0x1680
    || (0x2000 <= n <= 0x200A) || n == 0x2028 || n == 0x2029 || n == 0x202F
    || n == 0x205F || n == 0x3000
  }

  /** Neither the first nor the last character is white space. */
  predicate NoEdgeSpace(s: String) {
    s == [] || (!IsSpace(s[0]) && !IsSpace(s[|s| - 1]))
  }

  predicate AllSpace(s: String) {
    forall k :: 0 <= k < |s| ==> IsSpace(s[k])
  }

  /** `s.lstrip()`: drops the leading white space. */
  function TrimLeft(s: String): (r: String)
    ensures |r| <= |s|
  {
    if s != [] && IsSpace(s[0]) then TrimLeft(s[1..]) else s
  }

  /** `lstrip` keeps a suffix, drops only white space, and stops at a character that is not. */
  lemma {:induction false} TrimLeftFacts(s: String)
    ensures TrimLeft(s) == s[|s| - |TrimLeft(s)|..]
    ensures AllSpace(s[..|s| - |TrimLeft(s)|])
    ensures TrimLeft(s) != [] ==> !IsSpace(TrimLeft(s)[0])
  {
    if s != [] && IsSpace(s[0]) {
      TrimLeftFacts(s[1..]);
      var r := TrimLeft(s);
      assert s[..|s| - |r|] == [s[0]] + s[1..][..|s| - 1 - |r|];
    }
  }

  /** `s.rstrip()`: drops the trailing white space. */
  function TrimRight(s: String): (r: String)
    ensures |r| <= |s|
  {
    if s != [] && IsSpace(s[|s| - 1]) then TrimRight(s[..|s| - 1]) else s
  }

  /** `rstrip` keeps a prefix, drops only white space, and stops at a character that is not. */
  lemma {:induction false} TrimRightFacts(s: String)
    ensures TrimRight(s) == s[..|TrimRight(s)|]
    ensures AllSpace(s[|TrimRight(s)|..])
    ensures TrimRight(s) != [] ==> !IsSpace(TrimRight(s)[|TrimRight(s)| - 1])
  {
    if s != [] && IsSpace(s[|s| - 1]) {
      TrimRightFacts(s[..|s| - 1]);
      var r := TrimRight(s);
      assert s[|r|..] == s[..|s| - 1][|r|..] + [s[|s| - 1]];
    }
  }

  /** `s.strip()`. */
  function Strip(s: String): (r: String)
    ensures |r| <= |s|
  {
    TrimRight(TrimLeft(s))
  }

  /** What `strip` gives is a piece of its input with no white space at either end. */
  lemma StripFacts(s: String)
    ensures NoEdgeSpace(Strip(s))
    ensures exists i, j :: 0 <= i <= j <= |s| && Strip(s) == s[i..j]
  {
    var t := TrimLeft(s);
    var r := TrimRight(t);
    TrimLeftFacts(s);
    TrimRightFacts(t);
    if r != [] {
      assert r[0] == t[0];
    }
    assert r == s[|s| - |t|..][..|r|] == s[|s| - |t|..|s| - |t| + |r|];
  }

  /** A character of the result of `strip` is a character of its input. */
  lemma StripChars(s: String, c: char)
    requires c in Strip(s)
    ensures c in s
  {
    StripFacts(s);
    var i, j :| 0 <= i <= j <= |s| && Strip(s) == s[i..j];
    var k :| 0 <= k < |Strip(s)| && Strip(s)[k] == c;
    assert s[i + k] == c;
  }

  /** A string without edge white space is its own strip. */
  lemma StripClean(s: String)
    requires NoEdgeSpace(s)
    ensures Strip(s) == s
  {
  }

  /** Leading white space is what `strip` removes. */
  lemma {:induction false} StripPadded(pad: String, s: String)
    requires AllSpace(pad) && NoEdgeSpace(s)
    ensures Strip(pad + s) == s
  {
    if pad == [] {
      assert pad + s == s;
      StripClean(s);
    } else {
      assert (pad + s)[1..] == pad[1..] + s;
      StripPadded(pad[1..], s);
    }
  }

  /**
   * `s.split(sep)`: the pieces between the occurrences of `sep`; there is
   * always one more piece than there are separators.
   */
  function Split(s: String, sep: char): (r: seq<String>)
    ensures |r| >= 1
    ensures forall i :: 0 <= i < |r| ==> sep !in r[i]
  {
    if s == [] then [[]]
    else
      var rest := Split(s[1..], sep);
      if s[0] == sep then [[]] + rest
      else [[s[0]] + rest[0]] + rest[1..]
  }

  /** `sep.join(pieces)`. */
  function Join(pieces: seq<String>, sep: String): String {
    if |pieces| == 0 then []
    else if |pieces| == 1 then pieces[0]
    else pieces[0] + sep + Join(pieces[1..], sep)
  }

  /** `c in s` for a single character is Dafny's `in`; this is `sub in s` for a string. */
  predicate Contains(s: String, sub: String) {
    sub <= s || (s != [] && Contains(s[1..], sub))
  }

  predicate StartsWith(s: String, prefix: String) {
    prefix <= s
  }

  /** `s.replace(a, b)` for one-character `a` and `b`. */
  function ReplaceChar(s: String, a: char, b: char): (r: String)
    ensures |r| == |s|
    ensures forall k :: 0 <= k < |s| ==> r[k] == (if s[k] == a then b else s[k])
    ensures a != b ==> a !in r
  {
    if s == [] then []
    else [if s[0] == a then b else s[0]] + ReplaceChar(s[1..], a, b)
  }

  /** `s.lower()` on ASCII letters; other characters are kept. */
  function LowerAscii(s: String): (r: String)
    ensures |r| == |s|
    ensures forall k :: 0 <= k < |s| ==> !('A' <= r[k] <= 'Z')
  {
    if s == [] then []
    else
      var c := s[0];
      [if 'A' <= c <= 'Z' then (c as int + 32) as char else c] + LowerAscii(s[1..])
  }

  /** Concatenation regroups; stated once so that long loops need not rediscover it. */
  lemma AppendAssociative<T>(a: seq<T>, b: seq<T>, c: seq<T>)
    ensures (a + b) + c == a + (b + c)
  {
  }

  /** `s[:n]`. */
  function TakePrefix(s: String, n: nat): (r: String)
    ensures |r| == (if n < |s| then n else |s|) && r <= s
  {
    if n < |s| then s[..n] else s
  }

  // ---------------------------------------------------------------------
  // Split and join are inverse to each other

  /** A string without the separator splits into itself. */
  lemma {:induction false} SplitWithoutSeparator(a: String, sep: char)
    requires sep !in a
    ensures Split(a, sep) == [a]
  {
    if a != [] {
      SplitWithoutSeparator(a[1..], sep);
      assert [a[0]] + a[1..] == a;
    }
  }

  /** Splitting at one occurrence of the separator splits both halves. */
  lemma {:induction false} SplitAround(a: String, b: String, sep: char)
    ensures Split(a + [sep] + b, sep) == Split(a, sep) + Split(b, sep)
  {
    var s := a + [sep] + b;
    if a == [] {
      assert s == [sep] + b;
      assert s[1..] == b;
      assert Split(s, sep) == [[]] + Split(b, sep);
    } else {
      assert s[1..] == a[1..] + [sep] + b;
      assert s[0] == a[0];
      SplitAround(a[1..], b, sep);
      var rest := Split(s[1..], sep);
      var left := Split(a[1..], sep);
      assert rest == left + Split(b, sep);
      if a[0] == sep {
        assert Split(s, sep) == [[]] + rest;
        assert Split(a, sep) == [[]] + left;
        AppendAssociative([[]], left, Split(b, sep));
      } else {
        assert rest[0] == left[0];
        assert rest[1..] == left[1..] + Split(b, sep);
        var first := [a[0]] + left[0];
        assert Split(s, sep) == [first] + rest[1..];
        assert Split(a, sep) == [first] + left[1..];
        AppendAssociative([first], left[1..], Split(b, sep));
      }
    }
  }

  /** A prefix without the separator sticks to the first piece. */
  lemma {:induction false} SplitPrefixed(pad: String, x: String, sep: char)
    requires sep !in pad
    ensures Split(pad + x, sep) == [pad + Split(x, sep)[0]] + Split(x, sep)[1..]
  {
    if pad == [] {
      assert pad + x == x;
      assert pad + Split(x, sep)[0] == Split(x, sep)[0];
      assert Split(x, sep) == [Split(x, sep)[0]] + Split(x, sep)[1..];
    } else {
      assert (pad + x)[1..] == pad[1..] + x;
      SplitPrefixed(pad[1..], x, sep);
      assert (pad + x)[0] == pad[0];
      assert [pad[0]] + (pad[1..] + Split(x, sep)[0]) == pad + Split(x, sep)[0];
    }
  }

  /** `sep.join(s.split(sep)) == s`. */
  lemma {:induction false} JoinSplit(s: String, sep: char)
    ensures Join(Split(s, sep), [sep]) == s
  {
    if s != [] {
      JoinSplit(s[1..], sep);
      var rest := Split(s[1..], sep);
      if s[0] == sep {
        assert ([[]] + rest)[1..] == rest;
      } else if |rest| == 1 {
        assert [s[0]] + s[1..] == s;
      } else {
        assert ([[s[0]] + rest[0]] + rest[1..])[1..] == rest[1..];
        assert [s[0]] + s[1..] == s;
      }
    }
  }

  /**
   * Joining pieces with separator `sep` followed by padding `pad` and
   * splitting on `sep` again gives back the first piece as it was and every
   * later piece with the padding in front.
   */
  lemma {:induction false} SplitJoinPadded(ps: seq<String>, sep: char, pad: String)
    requires |ps| >= 1
    requires sep !in pad
    requires forall i :: 0 <= i < |ps| ==> sep !in ps[i]
    ensures |Split(Join(ps, [sep] + pad), sep)| == |ps|
    ensures Split(Join(ps, [sep] + pad), sep)[0] == ps[0]
    ensures forall i :: 1 <= i < |ps| ==> Split(Join(ps, [sep] + pad), sep)[i] == pad + ps[i]
  {
    if |ps| == 1 {
      SplitWithoutSeparator(ps[0], sep);
    } else {
      var tail := Join(ps[1..], [sep] + pad);
      assert Join(ps, [sep] + pad) == ps[0] + [sep] + (pad + tail);
      SplitAround(ps[0], pad + tail, sep);
      SplitWithoutSeparator(ps[0], sep);
      SplitJoinPadded(ps[1..], sep, pad);
      SplitPrefixed(pad, tail, sep);
      var r := Split(Join(ps, [sep] + pad), sep);
      forall i | 1 <= i < |ps| ensures r[i] == pad + ps[i] {
        if i > 1 {
          assert r[i] == Split(tail, sep)[i - 1] == pad + ps[1..][i - 1];
        }
      }
    }
  }

  /** `s.split(sep)` after `sep.join(ps)` gives `ps` back when no piece holds `sep`. */
  lemma SplitJoin(ps: seq<String>, sep: char)
    requires |ps| >= 1
    requires forall i :: 0 <= i < |ps| ==> sep !in ps[i]
    ensures Split(Join(ps, [sep]), sep) == ps
  {
    SplitJoinPadded(ps, sep, []);
    var r := Split(Join(ps, [sep]), sep);
    assert [sep] + [] == [sep];
    forall i | 1 <= i < |ps| ensures r[i] == ps[i] {
      assert [] + ps[i] == ps[i];
    }
  }

  // ---------------------------------------------------------------------
  // Lists shown as one "; "-joined string

  /** No entry holds ';' or has white space at its ends. */
  predicate CleanEntries(entries: seq<String>) {
    forall i :: 0 <= i < |entries| ==> ';' !in entries[i] && NoEdgeSpace(entries[i])
  }

  /** `[v.strip() for v in pieces]`. */
  function StripEach(pieces: seq<String>): (r: seq<String>)
    ensures |r| == |pieces|
    ensures forall i :: 0 <= i < |pieces| ==> r[i] == Strip(pieces[i])
  {
    if pieces == [] then [] else [Strip(pieces[0])] + StripEach(pieces[1..])
  }

  /**
   * A non-empty list of clean entries joined with "; " is read back by
   * splitting on ';' and stripping every piece.
   */
  lemma StripEachSplitJoin(entries: seq<String>)
    requires |entries| >= 1 && CleanEntries(entries)
    ensures StripEach(Split(Join(entries, "; "), ';')) == entries
  {
    assert "; " == [';'] + " ";
    assert forall i :: 0 <= i < |entries| ==> ';' !in entries[i];
    SplitJoinPadded(entries, ';', " ");
    StripEachPadded(Split(Join(entries, "; "), ';'), entries);
  }

  /** Stripping the first entry and the later entries with one leading space gives the entries back. */
  lemma StripEachPadded(pieces: seq<String>, entries: seq<String>)
    requires |pieces| == |entries| >= 1 && CleanEntries(entries)
    requires pieces[0] == entries[0]
    requires forall i :: 1 <= i < |entries| ==> pieces[i] == " " + entries[i]
    ensures StripEach(pieces) == entries
  {
    var r := StripEach(pieces);
    assert AllSpace(" ") by { assert IsSpace(' '); }
    forall i | 0 <= i < |entries| ensures r[i] == entries[i] {
      assert NoEdgeSpace(entries[i]);
      if i == 0 {
        StripClean(entries[0]);
      } else {
        StripPadded(" ", entries[i]);
      }
    }
  }

  /** The last piece of a split is what follows the last separator. */
  lemma LastPieceAfterSeparator(a: String, b: String, sep: char)
    requires sep !in b
    ensures Split(a + [sep] + b, sep)[|Split(a + [sep] + b, sep)| - 1] == b
  {
    SplitAround(a, b, sep);
    SplitWithoutSeparator(b, sep);
  }
}
