/**
 * The JavaScript string operations the proxy relies on, over `seq<char>`:
 * `indexOf`, `startsWith`, `split`, `join` and `trim`.
 */
module Text {

  /** `pat` occurs in `s` starting at position `j`. */
  predicate OccursAt(s: string, j: int, pat: string)
  {
    0 <= j && j + |pat| <= |s| && s[j..j + |pat|] == pat
  }

  /** `String.prototype.startsWith`. */
  predicate StartsWith(s: string, prefix: string)
  {
    OccursAt(s, 0, prefix)
  }

  /** `indexOf` searching from position `from` on. */
  function IndexFrom(s: string, pat: string, from: nat): (r: int)
    decreases |s| - from
    ensures r == -1 || (from <= r && OccursAt(s, r, pat))
    ensures forall j :: from <= j && (r == -1 || j < r) ==> !OccursAt(s, j, pat)
  {
    if from + |pat| > |s| then -1
    else if s[from..from + |pat|] == pat then from
    else IndexFrom(s, pat, from + 1)
  }

  /** `String.prototype.indexOf`: the first position where `pat` occurs, or -1. */
  function IndexOf(s: string, pat: string): (r: int)
    ensures r == -1 || OccursAt(s, r, pat)
    ensures forall j :: 0 <= j && (r == -1 || j < r) ==> !OccursAt(s, j, pat)
  {
    IndexFrom(s, pat, 0)
  }

  /** The concatenation of all parts (`parts.join('')`). */
  function Concat(parts: seq<string>): string
  {
    if parts == [] then "" else parts[0] + Concat(parts[1..])
  }

  lemma {:induction false} ConcatAppend(a: seq<string>, b: seq<string>)
    ensures Concat(a + b) == Concat(a) + Concat(b)
  {
    if a != [] {
      assert (a + b)[0] == a[0] && (a + b)[1..] == a[1..] + b;
      ConcatAppend(a[1..], b);
    } else {
      assert a + b == b;
    }
  }

  /** `Array.prototype.join(sep)` on strings. */
  function Join(parts: seq<string>, sep: string): string
  {
    if |parts| == 0 then ""
    else if |parts| == 1 then parts[0]
    else parts[0] + sep + Join(parts[1..], sep)
  }

  /**
   * `String.prototype.split(sep)` for a one-character separator: the pieces
   * between separators, always at least one (the last may be empty).
   */
  function Split(s: string, sep: char): (r: seq<string>)
    decreases |s|
    ensures |r| >= 1
  {
    if s == [] then [""]
    else
      var rest := Split(s[1..], sep);
      if s[0] == sep then [""] + rest
      else [[s[0]] + rest[0]] + rest[1..]
  }

  /** No piece of a split holds the separator. */
  lemma {:induction false} SplitPiecesFree(s: string, sep: char)
    ensures forall i :: 0 <= i < |Split(s, sep)| ==> sep !in Split(s, sep)[i]
    decreases |s|
  {
    if s != [] {
      SplitPiecesFree(s[1..], sep);
      var rest := Split(s[1..], sep);
      if s[0] != sep {
        assert sep !in [s[0]] + rest[0];
      }
    }
  }

  /** Joining the pieces of a split with the separator gives the string back. */
  lemma {:induction false} JoinSplit(s: string, sep: char)
    ensures Join(Split(s, sep), [sep]) == s
  {
    if s != [] {
      var rest := Split(s[1..], sep);
      JoinSplit(s[1..], sep);
      if s[0] == sep {
        assert Split(s, sep)[1..] == rest;
        if |rest| == 1 {
          assert Join(rest, [sep]) == rest[0];
        }
        assert s == [sep] + s[1..];
      } else {
        var r := Split(s, sep);
        assert r[1..] == rest[1..];
        if |rest| == 1 {
          assert s == [s[0]] + s[1..];
        } else {
          assert rest[1..][1..] == rest[2..];
          assert Join(rest, [sep]) == rest[0] + [sep] + Join(rest[1..], [sep]);
          assert s == [s[0]] + s[1..];
        }
      }
    }
  }

  /** Splitting a join of separator-free pieces gives the pieces back. */
  lemma {:induction false} SplitJoin(parts: seq<string>, sep: char)
    requires |parts| >= 1
    requires forall i :: 0 <= i < |parts| ==> sep !in parts[i]
    ensures Split(Join(parts, [sep]), sep) == parts
  {
    if |parts| == 1 {
      SplitFree(parts[0], sep);
    } else {
      SplitJoin(parts[1..], sep);
      SplitAppendSep(parts[0], Join(parts[1..], [sep]), sep);
      assert parts == [parts[0]] + parts[1..];
    }
  }

  /** A string without the separator splits into itself. */
  lemma {:induction false} SplitFree(s: string, sep: char)
    requires sep !in s
    ensures Split(s, sep) == [s]
  {
    if s != [] {
      SplitFree(s[1..], sep);
      assert s == [s[0]] + s[1..];
    }
  }

  /** A separator-free prefix followed by a separator opens a new piece. */
  lemma {:induction false} SplitAppendSep(x: string, y: string, sep: char)
    requires sep !in x
    ensures Split(x + [sep] + y, sep) == [x] + Split(y, sep)
  {
    if x == [] {
      assert x + [sep] + y == [sep] + y;
      assert ([sep] + y)[1..] == y;
    } else {
      assert (x + [sep] + y)[1..] == x[1..] + [sep] + y;
      SplitAppendSep(x[1..], y, sep);
      assert [x[0]] + x[1..] == x;
    }
  }

  /** Splitting a string that starts with `c`, in terms of splitting the rest. */
  lemma SplitCons(c: char, s: string, sep: char)
    ensures var q := Split(s, sep);
      Split([c] + s, sep) == if c == sep then [""] + q else [[c] + q[0]] + q[1..]
  {
    assert ([c] + s)[0] == c && ([c] + s)[1..] == s;
  }

  /**
   * Splitting a concatenation: every complete piece of `x` stays as it is, and
   * the last (unterminated) piece of `x` is continued by `y`.
   */
  lemma {:induction false} SplitAppend(x: string, y: string, sep: char)
    ensures var p := Split(x, sep);
      Split(x + y, sep) == p[..|p| - 1] + Split(p[|p| - 1] + y, sep)
  {
    if x == [] {
      assert x + y == "" + y;
    } else {
      SplitAppend(x[1..], y, sep);
      SplitAppendCons(x, y, sep);
    }
  }

  /** The inductive step of `SplitAppend`, from `x[1..]` to `x`. */
  lemma SplitAppendCons(x: string, y: string, sep: char)
    requires x != []
    requires var q := Split(x[1..], sep); Split(x[1..] + y, sep) == q[..|q| - 1] + Split(q[|q| - 1] + y, sep)
    ensures var p := Split(x, sep);
      Split(x + y, sep) == p[..|p| - 1] + Split(p[|p| - 1] + y, sep)
  {
    var c := x[0];
    var q := Split(x[1..], sep);
    var t := Split(x[1..] + y, sep);
    var tail := Split(q[|q| - 1] + y, sep);
    var p := Split(x, sep);
    var pt := Split(x + y, sep);
    assert (x + y)[0] == c && (x + y)[1..] == x[1..] + y;
    assert p == if c == sep then [""] + q else [[c] + q[0]] + q[1..];
    assert pt == if c == sep then [""] + t else [[c] + t[0]] + t[1..];
    if c == sep {
      SplitAppendAtSep(p, q, pt, t, tail);
    } else if |q| >= 2 {
      SplitAppendInside(c, p, q, pt, t, tail);
    } else {
      SplitAppendLast(c, p, q, pt, t, y, sep);
    }
    assert pt == p[..|p| - 1] + Split(p[|p| - 1] + y, sep);
  }

  /** The case of `SplitAppendCons` where `x` starts with the separator. */
  lemma SplitAppendAtSep(p: seq<string>, q: seq<string>, pt: seq<string>, t: seq<string>, tail: seq<string>)
    requires |q| >= 1 && t == q[..|q| - 1] + tail
    requires p == [""] + q && pt == [""] + t
    ensures pt == p[..|p| - 1] + tail && p[|p| - 1] == q[|q| - 1]
  {
    assert p[..|p| - 1] == [""] + q[..|q| - 1];
  }

  /** The case of `SplitAppendCons` where the first piece of `x` ends before the last. */
  lemma SplitAppendInside(c: char, p: seq<string>, q: seq<string>, pt: seq<string>, t: seq<string>, tail: seq<string>)
    requires |q| >= 2 && t == q[..|q| - 1] + tail
    requires p == [[c] + q[0]] + q[1..] && pt == [[c] + t[0]] + t[1..]
    ensures pt == p[..|p| - 1] + tail && p[|p| - 1] == q[|q| - 1]
  {
    assert t[0] == q[0] && t[1..] == q[1..][..|q| - 2] + tail;
    assert p[..|p| - 1] == [[c] + q[0]] + q[1..][..|q| - 2];
  }

  /** The case of `SplitAppendCons` where `x` holds no separator after its first character. */
  lemma SplitAppendLast(c: char, p: seq<string>, q: seq<string>, pt: seq<string>, t: seq<string>, y: string, sep: char)
    requires c != sep && |q| == 1 && t == q[..0] + Split(q[0] + y, sep)
    requires p == [[c] + q[0]] + q[1..] && pt == [[c] + t[0]] + t[1..]
    ensures pt == p[..|p| - 1] + Split(p[|p| - 1] + y, sep)
  {
    SplitCons(c, q[0] + y, sep);
    assert [c] + q[0] + y == [c] + (q[0] + y);
    assert p[..|p| - 1] == [] && p[|p| - 1] == [c] + q[0];
    assert t == Split(q[0] + y, sep);
  }

  /** JavaScript's WhiteSpace and LineTerminator characters, as `trim` removes them. */
  predicate IsSpace(c: char)
  {
    c == ' ' || c == '\t' || c == '\n' || c == '\r' || c == '\U{B}' || c == '\U{C}'
    || c == '\U{A0}' || c == '\U{1680}' || ('\U{2000}' <= c <= '\U{200A}')
    || c == '\U{2028}' || c == '\U{2029}' || c == '\U{202F}' || c == '\U{205F}'
    || c == '\U{3000}' || c == '\U{FEFF}'
  }

  /** Drops leading white space: the result is the longest suffix not starting with it. */
  function TrimStart(s: string): (r: string)
    ensures |r| <= |s| && r == s[|s| - |r|..]
    ensures r == [] || !IsSpace(r[0])
    ensures forall i :: 0 <= i < |s| - |r| ==> IsSpace(s[i])
  {
    if s != [] && IsSpace(s[0]) then TrimStart(s[1..]) else s
  }

  /** Drops trailing white space: the result is the longest prefix not ending with it. */
  function TrimEnd(s: string): (r: string)
    ensures |r| <= |s| && r == s[..|r|]
    ensures r == [] || !IsSpace(r[|r| - 1])
    ensures forall i :: |r| <= i < |s| ==> IsSpace(s[i])
  {
    if s != [] && IsSpace(s[|s| - 1]) then TrimEnd(s[..|s| - 1]) else s
  }

  /** `String.prototype.trim`. */
  function Trim(s: string): (r: string)
    ensures r == [] || (!IsSpace(r[0]) && !IsSpace(r[|r| - 1]))
    ensures var k := |s| - |TrimStart(s)|;
      && k + |r| <= |s| && r == s[k..k + |r|]
      && (forall i :: 0 <= i < k ==> IsSpace(s[i]))
      && (forall i :: k + |r| <= i < |s| ==> IsSpace(s[i]))
  {
    TrimEnd(TrimStart(s))
  }
}
