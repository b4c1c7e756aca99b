/**
 * The few pieces of java.lang.String behaviour the converter relies on:
 * whitespace classes, `trim`, `replaceAll("\\s", "")`, decimal printing
 * of numbers, and splitting at a separator character.
 */
module Text {

  /** A character matched by the regular-expression class `\s`: space, \t, \n, \x0B, \f, \r. */
  predicate IsSpace(c: char)
  {
    c == ' ' || (9 <= c as int <= 13)
  }

  /** A character removed by `String.trim`: every code point up to U+0020. */
  predicate IsTrimmed(c: char)
  {
    c as int <= 32
  }

  /** `s.replaceAll("\\s", "")`: every whitespace character deleted, the rest kept in order. */
  function StripSpaces(s: string): (r: string)
    ensures |r| <= |s|
    ensures forall i :: 0 <= i < |r| ==> !IsSpace(r[i])
  {
    if s == [] then []
    else if IsSpace(s[0]) then StripSpaces(s[1..])
    else [s[0]] + StripSpaces(s[1..])
  }

  /** A string with no whitespace is left alone by StripSpaces. */
  lemma {:induction false} StripSpacesKeepsClean(s: string)
    requires forall i :: 0 <= i < |s| ==> !IsSpace(s[i])
    ensures StripSpaces(s) == s
  {
    if s != [] {
      StripSpacesKeepsClean(s[1..]);
    }
  }

  /** Stripping twice is stripping once. */
  lemma StripSpacesIdempotent(s: string)
    ensures StripSpaces(StripSpaces(s)) == StripSpaces(s)
  {
    StripSpacesKeepsClean(StripSpaces(s));
  }

  function TrimStart(s: string): (r: string)
    ensures |r| <= |s| && r == s[|s| - |r|..]
    ensures r == [] || !IsTrimmed(r[0])
  {
    if s != [] && IsTrimmed(s[0]) then TrimStart(s[1..]) else s
  }

  function TrimEnd(s: string): (r: string)
    ensures |r| <= |s| && r == s[..|r|]
    ensures r == [] || !IsTrimmed(r[|r| - 1])
  {
    if s != [] && IsTrimmed(s[|s| - 1]) then TrimEnd(s[..|s| - 1]) else s
  }

  /** `String.trim`: leading and trailing characters up to U+0020 removed. */
  function Trim(s: string): (r: string)
    ensures |r| <= |s|
    ensures r == [] || (!IsTrimmed(r[0]) && !IsTrimmed(r[|r| - 1]))
  {
    TrimEnd(TrimStart(s))
  }

  /** `TrimStart` drops only characters up to U+0020. */
  lemma {:induction false} TrimStartDrops(s: string)
    ensures forall k :: 0 <= k < |s| - |TrimStart(s)| ==> IsTrimmed(s[k])
  {
    if s != [] && IsTrimmed(s[0]) {
      TrimStartDrops(s[1..]);
      assert forall k :: 1 <= k < |s| ==> s[k] == s[1..][k - 1];
    }
  }

  /** `TrimEnd` drops only characters up to U+0020. */
  lemma {:induction false} TrimEndDrops(s: string)
    ensures forall k :: |TrimEnd(s)| <= k < |s| ==> IsTrimmed(s[k])
  {
    if s != [] && IsTrimmed(s[|s| - 1]) {
      TrimEndDrops(s[..|s| - 1]);
    }
  }

  /** `r` is `s` with `i` characters cut at the front and the rest after `r` cut at the back, all of them up to U+0020. */
  predicate CutAt(s: string, r: string, i: int)
  {
    0 <= i && i + |r| <= |s| && r == s[i..i + |r|]
    && (forall k :: 0 <= k < i ==> IsTrimmed(s[k]))
    && (forall k :: i + |r| <= k < |s| ==> IsTrimmed(s[k]))
  }

  /**
   * `Trim` cuts the input at both ends and nowhere else, and only characters
   * up to U+0020 are cut. With the ends of the result (see `Trim`) this
   * determines it.
   */
  lemma TrimExact(s: string)
    ensures exists i :: CutAt(s, Trim(s), i)
  {
    var t := TrimStart(s);
    var r := Trim(s);
    var i := |s| - |t|;
    TrimStartDrops(s);
    TrimEndDrops(t);
    assert t == s[i..];
    assert r == t[..|r|];
    assert r == s[i..i + |r|];
    assert forall k :: i + |r| <= k < |s| ==> s[k] == t[k - i];
    assert CutAt(s, r, i);
  }

  function DigitChar(d: nat): (c: char)
    requires d < 10
    ensures '0' <= c <= '9' && c as int - '0' as int == d
  {
    "0123456789"[d]
  }

  /** Decimal printing of a non-negative number, as `Integer.toString` and `"" + n` do. */
  function NatToString(n: nat): (r: string)
    ensures |r| >= 1
    ensures forall i :: 0 <= i < |r| ==> '0' <= r[i] <= '9'
    ensures n < 10 <==> |r| == 1
  {
    if n < 10 then [DigitChar(n)] else NatToString(n / 10) + [DigitChar(n % 10)]
  }

  /** Different numbers print differently. */
  lemma {:induction false} NatToStringInjective(a: nat, b: nat)
    requires NatToString(a) == NatToString(b)
    ensures a == b
  {
    if a >= 10 && b >= 10 {
      var sa, sb := NatToString(a), NatToString(b);
      assert sa[..|sa| - 1] == NatToString(a / 10);
      assert sb[..|sb| - 1] == NatToString(b / 10);
      NatToStringInjective(a / 10, b / 10);
      assert DigitChar(a % 10) == sa[|sa| - 1] == sb[|sb| - 1] == DigitChar(b % 10);
    }
  }

  /** Decimal printing of a Java `int`, with a leading '-' for a negative one. */
  function IntToString(i: int): (r: string)
    ensures i >= 0 ==> r == NatToString(i)
    ensures i < 0 ==> r == "-" + NatToString(-i)
  {
    if i < 0 then "-" + NatToString(-i) else NatToString(i)
  }

  /** Different integers print differently. */
  lemma IntToStringInjective(a: int, b: int)
    requires IntToString(a) == IntToString(b)
    ensures a == b
  {
    var sa, sb := IntToString(a), IntToString(b);
    assert (sa[0] == '-' <==> a < 0) && (sb[0] == '-' <==> b < 0);
    if a < 0 && b < 0 {
      assert sa[1..] == NatToString(-a) && sb[1..] == NatToString(-b);
      NatToStringInjective(-a, -b);
    } else if a >= 0 && b >= 0 {
      NatToStringInjective(a, b);
    }
  }

  /** A string made of digits only holds no separator such as '_' or '-'. */
  predicate NoChar(s: string, c: char)
  {
    forall i :: 0 <= i < |s| ==> s[i] != c
  }

  lemma NatToStringHasNo(n: nat, c: char)
    requires !('0' <= c <= '9')
    ensures NoChar(NatToString(n), c)
  {
  }

  lemma IntToStringHasNo(i: int, c: char)
    requires !('0' <= c <= '9') && c != '-'
    ensures NoChar(IntToString(i), c)
  {
    if i < 0 {
      NatToStringHasNo(-i, c);
    } else {
      NatToStringHasNo(i, c);
    }
  }

  /** Joining two pieces with a separator that the first piece does not contain can be undone. */
  lemma SplitAtFirst(a: string, b: string, c: string, d: string, sep: char)
    requires NoChar(a, sep) && NoChar(c, sep)
    requires a + [sep] + b == c + [sep] + d
    ensures a == c && b == d
  {
    var s := a + [sep] + b;
    assert s[|a|] == sep && s[|c|] == sep;
    assert |a| == |c|;
    assert a == s[..|a|] == c;
    assert b == s[|a| + 1..] == d;
  }

  /** Joining two pieces with a separator that the second piece does not contain can be undone. */
  lemma SplitAtLast(a: string, b: string, c: string, d: string, sep: char)
    requires NoChar(b, sep) && NoChar(d, sep)
    requires a + [sep] + b == c + [sep] + d
    ensures a == c && b == d
  {
    var s := a + [sep] + b;
    assert s[|a|] == sep && s[|c|] == sep;
    if |b| < |d| {
      assert false;
    } else if |d| < |b| {
      assert false;
    }
    assert a == s[..|a|] == c;
    assert b == s[|a| + 1..] == d;
  }

  /** The pieces of `s` between occurrences of `sep`, empty ones included. */
  function Pieces(s: string, sep: char): (r: seq<string>)
    ensures |r| >= 1
    ensures forall i :: 0 <= i < |r| ==> NoChar(r[i], sep)
  {
    if s == [] then [[]]
    else
      var rest := Pieces(s[1..], sep);
      if s[0] == sep then [[]] + rest else [[s[0]] + rest[0]] + rest[1..]
  }

  /** A string without the separator is one piece. */
  lemma {:induction false} PiecesWithoutSep(s: string, sep: char)
    requires sep !in s
    ensures Pieces(s, sep) == [s]
  {
    if s != [] {
      PiecesWithoutSep(s[1..], sep);
      assert [s[0]] + s[1..] == s;
    }
  }

  /** A string with one separator splits into the parts on either side of it. */
  lemma {:induction false} PiecesAround(lo: string, hi: string, sep: char)
    requires sep !in lo && sep !in hi
    ensures Pieces(lo + [sep] + hi, sep) == [lo, hi]
  {
    var s := lo + [sep] + hi;
    if lo == [] {
      assert s == [sep] + hi && s[1..] == hi;
      PiecesWithoutSep(hi, sep);
    } else {
      assert s[0] == lo[0] && s[1..] == lo[1..] + [sep] + hi;
      PiecesAround(lo[1..], hi, sep);
      assert [lo[0]] + lo[1..] == lo;
    }
  }

  /** The pieces put back together with the separator between them. */
  function JoinWith(parts: seq<string>, sep: char): string
    requires |parts| >= 1
  {
    if |parts| == 1 then parts[0] else parts[0] + [sep] + JoinWith(parts[1..], sep)
  }

  /** Splitting at every separator loses nothing: joining the pieces gives the string back. */
  lemma {:induction false} PiecesJoin(s: string, sep: char)
    ensures JoinWith(Pieces(s, sep), sep) == s
  {
    if s != [] {
      var rest := Pieces(s[1..], sep);
      PiecesJoin(s[1..], sep);
      if s[0] == sep {
        assert Pieces(s, sep)[1..] == rest;
      } else if |rest| == 1 {
        assert Pieces(s, sep) == [[s[0]] + rest[0]];
      } else {
        var r := Pieces(s, sep);
        assert r[1..] == rest[1..];
        assert JoinWith(rest, sep) == rest[0] + [sep] + JoinWith(rest[1..], sep);
        assert r[0] + [sep] + JoinWith(r[1..], sep) == [s[0]] + (rest[0] + [sep] + JoinWith(rest[1..], sep));
      }
    }
  }

  /** The list without its trailing empty strings. */
  function DropTrailingEmpty(r: seq<string>): (d: seq<string>)
    ensures |d| <= |r| && d == r[..|d|]
    ensures d == [] || d[|d| - 1] != []
    ensures forall i :: |d| <= i < |r| ==> r[i] == []
  {
    if r == [] || r[|r| - 1] != [] then r else DropTrailingEmpty(r[..|r| - 1])
  }

  /**
   * `s.split(sep)` in Java for a one-character pattern: the string itself when
   * the separator does not occur, else its pieces with the trailing empty
   * ones removed.
   */
  function JavaSplit(s: string, sep: char): (r: seq<string>)
    ensures sep !in s ==> r == [s]
    ensures forall i :: 0 <= i < |r| ==> NoChar(r[i], sep)
  {
    if sep !in s then [s] else DropTrailingEmpty(Pieces(s, sep))
  }

  predicate AllChar(t: string, c: char)
  {
    forall i :: 0 <= i < |t| ==> t[i] == c
  }

  lemma {:induction false} JoinSnoc(parts: seq<string>, x: string, sep: char)
    requires |parts| >= 1
    ensures JoinWith(parts + [x], sep) == JoinWith(parts, sep) + [sep] + x
  {
    if |parts| == 1 {
      assert (parts + [x])[1..] == [x];
    } else {
      assert (parts + [x])[1..] == parts[1..] + [x];
      JoinSnoc(parts[1..], x, sep);
    }
  }

  /** Dropping the trailing empty pieces drops only separators from the end of the joined text. */
  lemma {:induction false} DropJoin(parts: seq<string>, sep: char)
    requires |parts| >= 1
    ensures var d := DropTrailingEmpty(parts); var j := JoinWith(parts, sep);
      && (d == [] ==> AllChar(j, sep))
      && (d != [] ==> JoinWith(d, sep) <= j && AllChar(j[|JoinWith(d, sep)|..], sep))
  {
    if parts[|parts| - 1] == [] && |parts| > 1 {
      var init := parts[..|parts| - 1];
      DropJoin(init, sep);
      assert parts == init + [[]];
      JoinSnoc(init, [], sep);
    }
  }

  /**
   * `JavaSplit` loses only the trailing separators: joining the pieces with
   * the separator gives the input up to them, and when the separator occurs
   * the last piece is not empty. With no piece holding the separator this
   * determines the pieces.
   */
  lemma JavaSplitJoins(s: string, sep: char)
    ensures var r := JavaSplit(s, sep);
      && (r == [] ==> AllChar(s, sep))
      && (r != [] ==> JoinWith(r, sep) <= s && AllChar(s[|JoinWith(r, sep)|..], sep))
      && (sep in s && r != [] ==> r[|r| - 1] != [])
  {
    if sep !in s {
      assert s[|s|..] == [];
    } else {
      PiecesJoin(s, sep);
      DropJoin(Pieces(s, sep), sep);
    }
  }
}
