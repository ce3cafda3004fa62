/**
 * The parts of Go's `strings` package and `len` that the tank-file pipeline relies on:
 * splitting on a one-character separator, and the byte length of a string.
 */
module Strings {

  /**
   * `strings.Split(s, sep)` for a one-character separator: the pieces of `s` between the
   * occurrences of `sep`. A string without `sep` (the empty string included) gives one piece.
   */
  function Split(s: string, sep: char): (pieces: seq<string>)
    ensures |pieces| >= 1
    ensures forall i :: 0 <= i < |pieces| ==> sep !in pieces[i]
  {
    if |s| == 0 then [""]
    else if s[0] == sep then [""] + Split(s[1..], sep)
    else
      var rest := Split(s[1..], sep);
      [[s[0]] + rest[0]] + rest[1..]
  }

  /** `strings.Join(pieces, sep)`: the pieces with `sep` between neighbours. */
  function Join(pieces: seq<string>, sep: char): string
    requires |pieces| >= 1
  {
    if |pieces| == 1 then pieces[0] else pieces[0] + [sep] + Join(pieces[1..], sep)
  }

  /** Joining the pieces of a split gives back the original string. */
  lemma {:induction false} JoinSplit(s: string, sep: char)
    ensures Join(Split(s, sep), sep) == s
  {
    if |s| == 0 {
    } else if s[0] == sep {
      var rest := Split(s[1..], sep);
      JoinSplit(s[1..], sep);
      assert ([""] + rest)[1..] == rest;
    } else {
      var rest := Split(s[1..], sep);
      JoinSplit(s[1..], sep);
      var pieces := [[s[0]] + rest[0]] + rest[1..];
      if |rest| == 1 {
        assert Join(pieces, sep) == [s[0]] + rest[0];
      } else {
        assert pieces[1..] == rest[1..];
        assert Join(rest, sep) == rest[0] + [sep] + Join(rest[1..], sep);
      }
    }
  }

  /** A string without the separator is a single piece. */
  lemma {:induction false} SplitWithoutSep(s: string, sep: char)
    requires sep !in s
    ensures Split(s, sep) == [s]
  {
    if |s| > 0 {
      assert sep !in s[1..] by {
        forall i | 0 <= i < |s[1..]| ensures s[1..][i] != sep { assert s[1..][i] == s[i + 1]; }
      }
      SplitWithoutSep(s[1..], sep);
      assert s[0] != sep;
      assert [s[0]] + s[1..] == s;
    }
  }

  /** The first occurrence of the separator ends the first piece. */
  lemma {:induction false} SplitAtFirst(x: string, sep: char, y: string)
    requires sep !in x
    ensures Split(x + [sep] + y, sep) == [x] + Split(y, sep)
  {
    var s := x + [sep] + y;
    if |x| == 0 {
      assert s[1..] == y;
    } else {
      assert s[0] == x[0];
      assert s[1..] == x[1..] + [sep] + y;
      assert sep !in x[1..] by {
        forall i | 0 <= i < |x[1..]| ensures x[1..][i] != sep { assert x[1..][i] == x[i + 1]; }
      }
      SplitAtFirst(x[1..], sep, y);
      assert [x[0]] + x[1..] == x;
    }
  }

  /** Splitting a join of separator-free pieces gives back the pieces. */
  lemma {:induction false} SplitJoin(pieces: seq<string>, sep: char)
    requires |pieces| >= 1
    requires forall i :: 0 <= i < |pieces| ==> sep !in pieces[i]
    ensures Split(Join(pieces, sep), sep) == pieces
  {
    if |pieces| == 1 {
      SplitWithoutSep(pieces[0], sep);
    } else {
      SplitJoin(pieces[1..], sep);
      SplitAtFirst(pieces[0], sep, Join(pieces[1..], sep));
      assert [pieces[0]] + pieces[1..] == pieces;
    }
  }

  /**
   * The first piece of `x + y` is `x` when `x` holds no separator and `y` is empty or
   * starts with one.
   */
  lemma FirstPiece(x: string, sep: char, y: string)
    requires sep !in x
    requires y == [] || y[0] == sep
    ensures Split(x + y, sep)[0] == x
  {
    if y == [] {
      assert x + y == x;
      SplitWithoutSep(x, sep);
    } else {
      assert x + y == x + [sep] + y[1..];
      SplitAtFirst(x, sep, y[1..]);
    }
  }

  /** What follows the second piece of a split: empty, or a separator and the later pieces. */
  function Remainder(pieces: seq<string>, sep: char): (r: string)
    requires |pieces| >= 2
    ensures r == [] || r[0] == sep
  {
    if |pieces| > 2 then [sep] + Join(pieces[2..], sep) else []
  }

  /** A string that splits into two or more pieces: first piece, separator, second, remainder. */
  lemma SplitFront(s: string, sep: char)
    requires |Split(s, sep)| >= 2
    ensures s == Split(s, sep)[0] + [sep] + Split(s, sep)[1] + Remainder(Split(s, sep), sep)
  {
    var p := Split(s, sep);
    JoinSplit(s, sep);
    if |p| > 2 {
      assert p[1..][1..] == p[2..];
      assert Join(p[1..], sep) == p[1] + [sep] + Join(p[2..], sep);
    } else {
      assert Join(p[1..], sep) == p[1];
    }
  }

  /** Number of bytes in the UTF-8 encoding of one character. */
  function Utf8Width(c: char): (n: nat)
    ensures 1 <= n <= 4
  {
    if c as int < 0x80 then 1
    else if c as int < 0x800 then 2
    else if c as int < 0x1_0000 then 3
    else 4
  }

  /** Go's `len` of a string: the number of bytes of its UTF-8 encoding. */
  function Utf8Len(s: string): (n: nat)
    ensures |s| <= n <= 4 * |s|
    ensures n == 0 <==> s == []
  {
    if s == [] then 0 else Utf8Width(s[0]) + Utf8Len(s[1..])
  }

  /** For ASCII text, bytes and characters coincide. */
  lemma {:induction false} Utf8LenAscii(s: string)
    requires forall i :: 0 <= i < |s| ==> s[i] as int < 0x80
    ensures Utf8Len(s) == |s|
  {
    if s != [] {
      assert forall i :: 0 <= i < |s[1..]| ==> s[1..][i] == s[i + 1];
      Utf8LenAscii(s[1..]);
    }
  }
}
