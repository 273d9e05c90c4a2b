/** The parts of the Java library that the level-definition reader leans on:
    String.startsWith, String.split with a one-character separator,
    Integer.parseInt and String.valueOf of a non-negative int. A Java null
    is an Option.None; an exception that escapes a call is Parsed.Throws. */
module JavaText {

  /** A Java reference that may be null. */
  datatype Option<+T> = None | Some(value: T)

  /** A Java call either returns a value or lets an exception escape. */
  datatype Parsed<+T> = Done(value: T) | Throws

  predicate StartsWith(s: string, prefix: string)
  {
    |prefix| <= |s| && s[..|prefix|] == prefix
  }

  /** The text between consecutive occurrences of `c`, every empty piece kept. */
  function Pieces(s: string, c: char): (r: seq<string>)
    ensures |r| >= 1
    ensures forall i :: 0 <= i < |r| ==> c !in r[i]
  {
    if |s| == 0 then [""]
    else
      var rest := Pieces(s[1..], c);
      if s[0] == c then [""] + rest else [[s[0]] + rest[0]] + rest[1..]
  }

  /** Glues parts back together with `c` between neighbours. */
  function Join(parts: seq<string>, c: char): string
  {
    if |parts| == 0 then ""
    else if |parts| == 1 then parts[0]
    else parts[0] + [c] + Join(parts[1..], c)
  }

  /** Java's split drops the empty strings at the end of its result. */
  function DropTrailingEmpty(p: seq<string>): (r: seq<string>)
    ensures r <= p
    ensures |r| > 0 ==> r[|r| - 1] != ""
    ensures forall i :: |r| <= i < |p| ==> p[i] == ""
  {
    if |p| == 0 then []
    else if p[|p| - 1] == "" then DropTrailingEmpty(p[..|p| - 1])
    else p
  }

  /** `s.split(c)` for a separator that is no regular-expression metacharacter:
      the whole string when `c` does not occur in it (so "" gives [""]),
      otherwise the pieces without the trailing empty ones (so ":" gives []). */
  function Split(s: string, c: char): (r: seq<string>)
    ensures forall i :: 0 <= i < |r| ==> c !in r[i]
    ensures c !in s ==> r == [s]
    ensures c in s && |r| > 0 ==> r[|r| - 1] != ""
  {
    if c !in s then [s] else DropTrailingEmpty(Pieces(s, c))
  }

  /** Splitting and joining again gives back the text. */
  lemma {:induction false} JoinPieces(s: string, c: char)
    ensures Join(Pieces(s, c), c) == s
  {
    if |s| > 0 {
      JoinPieces(s[1..], c);
      var rest := Pieces(s[1..], c);
      if s[0] == c {
        assert Pieces(s, c) == [""] + rest;
        assert ([""] + rest)[1..] == rest;
      } else if |rest| > 1 {
        var p := Pieces(s, c);
        assert p[0] == [s[0]] + rest[0] && p[1..] == rest[1..];
        assert Join(rest, c) == rest[0] + [c] + Join(rest[1..], c);
      }
    }
  }

  /** A text without the separator is a single piece. */
  lemma {:induction false} PiecesOfPlain(s: string, c: char)
    requires c !in s
    ensures Pieces(s, c) == [s]
  {
    if |s| > 0 {
      PiecesOfPlain(s[1..], c);
      assert [s[0]] + s[1..] == s;
    }
  }

  /** A separator ends the first piece. */
  lemma {:induction false} PiecesAfter(p: string, c: char, t: string)
    requires c !in p
    ensures Pieces(p + [c] + t, c) == [p] + Pieces(t, c)
  {
    var s := p + [c] + t;
    if |p| == 0 {
      assert s == [c] + t && s[1..] == t;
    } else {
      assert s[1..] == p[1..] + [c] + t;
      PiecesAfter(p[1..], c, t);
      assert [p[0]] + p[1..] == p;
    }
  }

  /** Joining parts that hold no separator and splitting again gives the parts. */
  lemma {:induction false} PiecesJoin(parts: seq<string>, c: char)
    requires |parts| >= 1
    requires forall i :: 0 <= i < |parts| ==> c !in parts[i]
    ensures Pieces(Join(parts, c), c) == parts
  {
    if |parts| == 1 {
      PiecesOfPlain(parts[0], c);
    } else {
      PiecesJoin(parts[1..], c);
      PiecesAfter(parts[0], c, Join(parts[1..], c));
      assert [parts[0]] + parts[1..] == parts;
    }
  }

  /** Java's split undoes a join of two or more separator-free parts whose
      last part is not empty. */
  lemma SplitJoin(parts: seq<string>, c: char)
    requires |parts| >= 2 && parts[|parts| - 1] != ""
    requires forall i :: 0 <= i < |parts| ==> c !in parts[i]
    ensures Split(Join(parts, c), c) == parts
  {
    var s := Join(parts, c);
    assert s == parts[0] + [c] + Join(parts[1..], c);
    assert s[|parts[0]|] == c;
    PiecesJoin(parts, c);
  }

  predicate IsDigit(ch: char)
  {
    '0' <= ch <= '9'
  }

  predicate AllDigits(s: string)
  {
    forall i :: 0 <= i < |s| ==> IsDigit(s[i])
  }

  /** The value of a run of decimal digits, most significant first. */
  function DigitsValue(s: string): nat
    requires AllDigits(s)
  {
    if |s| == 0 then 0 else DigitsValue(s[..|s| - 1]) * 10 + (s[|s| - 1] as int - '0' as int)
  }

  const IntMin: int := -0x8000_0000
  const IntMax: int := 0x7fff_ffff

  /** Integer.parseInt: an optional sign, then one or more ASCII digits,
      and the value must fit a 32-bit int; anything else is a
      NumberFormatException, here None. */
  function ParseInt(s: string): (r: Option<int>)
    ensures r.Some? ==> IntMin <= r.value <= IntMax
    ensures r.Some? ==> |s| >= 1 && (s[0] == '-' || s[0] == '+' || IsDigit(s[0]))
    ensures r.Some? && s[0] == '-' ==> r.value <= 0
    ensures r.Some? && s[0] != '-' ==> r.value >= 0
  {
    var signed := |s| > 0 && (s[0] == '-' || s[0] == '+');
    var digits := if signed then s[1..] else s;
    if |digits| == 0 || !AllDigits(digits) then None
    else
      var v: int := if signed && s[0] == '-' then -(DigitsValue(digits) as int) else DigitsValue(digits);
      if IntMin <= v <= IntMax then Some(v) else None
  }

  function DigitChar(d: int): char
    requires 0 <= d < 10
  {
    ('0' as int + d) as char
  }

  /** String.valueOf(n) for n >= 0: its decimal digits, with no leading zero. */
  function NatToString(n: nat): (s: string)
    ensures |s| >= 1 && AllDigits(s)
    ensures DigitsValue(s) == n
    ensures s[0] == '0' ==> n == 0
  {
    if n < 10 then [DigitChar(n)]
    else
      var t := NatToString(n / 10);
      var s := t + [DigitChar(n % 10)];
      assert s[..|s| - 1] == t;
      s
  }

  /** Integer.parseInt(String.valueOf(n)) == n. */
  lemma ParseValueOf(n: nat)
    requires n <= IntMax
    ensures ParseInt(NatToString(n)) == Some(n)
  {
    var s := NatToString(n);
    assert IsDigit(s[0]);
  }

  /** Integer.parseInt("-" + String.valueOf(n)) == -n, down to the
      smallest int. */
  lemma ParseNegated(n: nat)
    requires n <= IntMax + 1
    ensures ParseInt("-" + NatToString(n)) == Some(-(n as int))
  {
    var s := "-" + NatToString(n);
    assert s[1..] == NatToString(n);
  }

  /** Distinct numbers print differently. */
  lemma ValueOfInjective(i: nat, j: nat)
    requires NatToString(i) == NatToString(j)
    ensures i == j
  {
  }
}
