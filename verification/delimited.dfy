/**
  The string operations the gateway relies on: PHP's `explode` and
  `implode` over a delimiter, and the `%d` conversion used in its error
  messages. Strings stand for byte strings, one character per byte.
 */
module Delimited {

  /** `d` occurs in `s` starting at position `i`. */
  predicate OccursAt(s: string, d: string, i: int)
  {
    0 <= i && i + |d| <= |s| && s[i..i + |d|] == d
  }

  /** `d` occurs nowhere in `s`. */
  predicate Lacks(s: string, d: string)
  {
    forall i :: 0 <= i <= |s| ==> !OccursAt(s, d, i)
  }

  /** A string that lacks `d` has a tail that lacks it too. */
  lemma LacksTail(s: string, d: string)
    requires |s| >= 1 && Lacks(s, d)
    ensures Lacks(s[1..], d)
  {
    forall i | OccursAt(s[1..], d, i)
      ensures false
    {
      assert s[1..][i..i + |d|] == s[i + 1..i + 1 + |d|];
      assert OccursAt(s, d, i + 1);
    }
  }

  /** `explode(d, s)` for a non-empty delimiter: the pieces of `s` between
      the non-overlapping occurrences of `d`, scanned from the left.
      There is always at least one piece, and a string in which `d` does
      not occur is its own single piece. */
  function Split(s: string, d: string): (r: seq<string>)
    requires |d| > 0
    ensures |r| >= 1
    ensures |r| == 1 ==> r[0] == s
    ensures Lacks(s, d) ==> r == [s]
    decreases |s|
  {
    if |s| < |d| then [s]
    else if s[..|d|] == d then
      assert !Lacks(s, d) by {
        assert OccursAt(s, d, 0);
      }
      [""] + Split(s[|d|..], d)
    else
      var rest := Split(s[1..], d);
      assert Lacks(s, d) ==> rest == [s[1..]] by {
        if Lacks(s, d) {
          LacksTail(s, d);
        }
      }
      [[s[0]] + rest[0]] + rest[1..]
  }

  /** `implode(d, ts)`: the pieces with `d` between neighbours. */
  function Join(ts: seq<string>, d: string): (r: string)
    ensures |ts| == 1 ==> r == ts[0]
  {
    if |ts| == 0 then ""
    else if |ts| == 1 then ts[0]
    else ts[0] + d + Join(ts[1..], d)
  }

  /** A first piece followed by at least one more is joined to the rest by the delimiter. */
  lemma JoinCons(t: string, ts: seq<string>, d: string)
    requires |ts| >= 1
    ensures Join([t] + ts, d) == t + d + Join(ts, d)
  {
    assert ([t] + ts)[1..] == ts;
  }

  /** Joining the pieces of a split restores the original string, for any
      non-empty delimiter: `implode` undoes `explode`. */
  lemma {:induction false} JoinSplit(s: string, d: string)
    requires |d| > 0
    ensures Join(Split(s, d), d) == s
    decreases |s|
  {
    if |s| < |d| {
    } else if s[..|d|] == d {
      JoinSplit(s[|d|..], d);
      JoinEmptyHead(Split(s[|d|..], d), d);
      assert s == s[..|d|] + s[|d|..];
    } else {
      JoinSplit(s[1..], d);
      JoinExtendHead(s[0], Split(s[1..], d), d);
      assert s == [s[0]] + s[1..];
    }
  }

  /** An empty first piece contributes only the delimiter after it. */
  lemma JoinEmptyHead(ts: seq<string>, d: string)
    requires |ts| >= 1
    ensures Join([""] + ts, d) == d + Join(ts, d)
  {
    assert ([""] + ts)[1..] == ts;
  }

  /** Prefixing the first piece with a character prefixes the join with it. */
  lemma JoinExtendHead(c: char, ts: seq<string>, d: string)
    requires |ts| >= 1
    ensures Join([[c] + ts[0]] + ts[1..], d) == [c] + Join(ts, d)
  {
    var us := [[c] + ts[0]] + ts[1..];
    if |ts| > 1 {
      assert us[1..] == ts[1..];
    }
  }

  /** A piece free of the one-character delimiter `c` splits to itself. */
  lemma {:induction false} SplitWithoutDelimiter(t: string, c: char)
    requires c !in t
    ensures Split(t, [c]) == [t]
    decreases |t|
  {
    if |t| >= 1 {
      assert t[..1] == [t[0]] != [c];
      SplitWithoutDelimiter(t[1..], c);
      assert [t[0]] + t[1..] == t;
    }
  }

  /** Splitting `t + c + s` on `c` yields `t` and then the pieces of `s`,
      when `t` does not contain `c`. */
  lemma {:induction false} SplitAfterPiece(t: string, c: char, s: string)
    requires c !in t
    ensures Split(t + [c] + s, [c]) == [t] + Split(s, [c])
    decreases |t|
  {
    var whole := t + [c] + s;
    if |t| == 0 {
      assert whole[..1] == [c];
      assert whole[1..] == s;
    } else {
      assert whole[..1] == [t[0]] != [c];
      assert whole[1..] == t[1..] + [c] + s;
      SplitAfterPiece(t[1..], c, s);
      assert [t[0]] + t[1..] == t;
    }
  }

  /** Splitting a join on a one-character delimiter that no piece contains
      gives the pieces back: `explode` undoes `implode`. An empty list
      cannot come back, because `explode` always yields a piece. */
  lemma {:induction false} SplitJoin(ts: seq<string>, c: char)
    requires |ts| >= 1
    requires forall i :: 0 <= i < |ts| ==> c !in ts[i]
    ensures Split(Join(ts, [c]), [c]) == ts
  {
    if |ts| == 1 {
      SplitWithoutDelimiter(ts[0], c);
    } else {
      SplitJoin(ts[1..], c);
      SplitAfterPiece(ts[0], c, Join(ts[1..], [c]));
      assert [ts[0]] + ts[1..] == ts;
    }
  }

  predicate IsDigit(ch: char)
  {
    '0' <= ch <= '9'
  }

  /** The decimal digits of a natural number, without leading zeros. */
  function NatString(n: nat): (s: string)
    ensures |s| >= 1
    ensures forall i :: 0 <= i < |s| ==> IsDigit(s[i])
    ensures |s| > 1 ==> s[0] != '0'
  {
    if n < 10 then [('0' as int + n) as char]
    else NatString(n / 10) + [('0' as int + n % 10) as char]
  }

  /** The number a string of decimal digits denotes. */
  function DigitsValue(s: string): nat
    requires forall i :: 0 <= i < |s| ==> IsDigit(s[i])
  {
    if s == [] then 0
    else
      assert IsDigit(s[|s| - 1]);
      10 * DigitsValue(s[..|s| - 1]) + (s[|s| - 1] as int - '0' as int)
  }

  /** Reading the digits back gives the number. */
  lemma {:induction false} NatStringValue(n: nat)
    ensures DigitsValue(NatString(n)) == n
  {
    if n >= 10 {
      NatStringValue(n / 10);
      var s := NatString(n);
      assert s[..|s| - 1] == NatString(n / 10);
    }
  }

  /** `sprintf('%d', n)`: a minus sign for negative numbers, then the digits. */
  function DecimalString(n: int): (s: string)
    ensures |s| >= 1
    ensures s[0] == '-' <==> n < 0
    ensures forall i :: (if n < 0 then 1 else 0) <= i < |s| ==> IsDigit(s[i])
  {
    if n < 0 then "-" + NatString(-n) else NatString(n)
  }

  /** The integer a `%d` rendering denotes. */
  function DecimalValue(s: string): int
    requires |s| >= 1
    requires forall i :: (if s[0] == '-' then 1 else 0) <= i < |s| ==> IsDigit(s[i])
  {
    if s[0] == '-' then -(DigitsValue(s[1..]) as int) else DigitsValue(s)
  }

  /** Reading a `%d` rendering back gives the number, so distinct error
      codes are rendered distinctly. */
  lemma DecimalStringValue(n: int)
    ensures DecimalValue(DecimalString(n)) == n
  {
    if n < 0 {
      NatStringValue(-n);
      assert DecimalString(n)[1..] == NatString(-n);
    } else {
      NatStringValue(n);
    }
  }
}
