/** Text helpers shared by the formatters: Python's `%d` rendering of an
    integer, joining fields with a separator and splitting them again. */
module Text {

  /** The decimal digit for 0 <= d < 10. */
  function DigitChar(d: nat): (c: char)
    requires d < 10
    ensures '0' <= c <= '9'
  {
    "0123456789"[d]
  }

  /** The value of a decimal digit character. */
  function DigitValue(c: char): nat
    requires '0' <= c <= '9'
  {
    c as int - '0' as int
  }

  predicate IsDigits(s: string)
  {
    |s| >= 1 && forall i :: 0 <= i < |s| ==> '0' <= s[i] <= '9'
  }

  /** Decimal digits of a natural number, most significant first, no leading zero. */
  function NatString(n: nat): (s: string)
    ensures IsDigits(s)
    ensures |s| > 1 ==> s[0] != '0'
  {
    if n < 10 then [DigitChar(n)] else NatString(n / 10) + [DigitChar(n % 10)]
  }

  /** Decimal digits, optionally after one leading '-'. */
  predicate IsIntText(s: string)
  {
    |s| >= 1 && (s[0] == '-' ==> IsDigits(s[1..])) && (s[0] != '-' ==> IsDigits(s))
  }

  /** Python's `"%d" % n` and `str(n)` for an integer `n`. */
  function IntString(n: int): (s: string)
    ensures IsIntText(s)
    ensures forall i :: 0 <= i < |s| ==> s[i] == '-' || '0' <= s[i] <= '9'
  {
    if n < 0 then "-" + NatString(-n) else NatString(n)
  }

  /** Reads back a string of decimal digits. */
  function ParseNat(s: string): nat
    requires IsDigits(s)
  {
    if |s| == 1 then DigitValue(s[0])
    else ParseNat(s[..|s| - 1]) * 10 + DigitValue(s[|s| - 1])
  }

  /** Reads back what IntString writes; a leading '-' negates. */
  function ParseInt(s: string): int
    requires IsIntText(s)
  {
    if s[0] == '-' then 0 - ParseNat(s[1..]) else ParseNat(s)
  }

  lemma {:induction false} NatStringRoundTrip(n: nat)
    ensures ParseNat(NatString(n)) == n
  {
    if n >= 10 {
      var s := NatString(n);
      assert s[..|s| - 1] == NatString(n / 10);
      NatStringRoundTrip(n / 10);
    }
  }

  /** The integer rendering loses nothing: parsing it gives the integer back. */
  lemma IntStringRoundTrip(n: int)
    ensures ParseInt(IntString(n)) == n
  {
    if n < 0 {
      NatStringRoundTrip(-n);
      assert IntString(n)[1..] == NatString(-n);
    } else {
      NatStringRoundTrip(n);
    }
  }

  /** `sep.join(parts)` for a one-character separator. */
  function JoinWith(parts: seq<string>, sep: char): string
  {
    if |parts| == 0 then ""
    else if |parts| == 1 then parts[0]
    else parts[0] + [sep] + JoinWith(parts[1..], sep)
  }

  /** `s.split(sep)` for a one-character separator: always at least one field. */
  function SplitOn(s: string, sep: char): (fields: seq<string>)
    ensures |fields| >= 1
  {
    if |s| == 0 then [""]
    else if s[0] == sep then [""] + SplitOn(s[1..], sep)
    else
      var rest := SplitOn(s[1..], sep);
      [[s[0]] + rest[0]] + rest[1..]
  }

  /** Number of occurrences of `c` in `s`. */
  function CountChar(s: string, c: char): nat
  {
    if |s| == 0 then 0 else (if s[0] == c then 1 else 0) + CountChar(s[1..], c)
  }

  lemma {:induction false} CountCharAppend(s: string, t: string, c: char)
    ensures CountChar(s + t, c) == CountChar(s, c) + CountChar(t, c)
  {
    if |s| == 0 {
      assert s + t == t;
    } else {
      assert (s + t)[0] == s[0];
      assert (s + t)[1..] == s[1..] + t;
      CountCharAppend(s[1..], t, c);
    }
  }

  /** Total count of `c` over all parts. */
  function CountCharAll(parts: seq<string>, c: char): nat
  {
    if |parts| == 0 then 0 else CountChar(parts[0], c) + CountCharAll(parts[1..], c)
  }

  /** Joining adds exactly one separator between consecutive parts and none
      before the first or after the last. */
  lemma {:induction false} JoinWithSeparators(parts: seq<string>, sep: char)
    requires |parts| >= 1
    ensures CountChar(JoinWith(parts, sep), sep) == CountCharAll(parts, sep) + |parts| - 1
  {
    if |parts| > 1 {
      JoinWithSeparators(parts[1..], sep);
      CountCharAppend(parts[0] + [sep], JoinWith(parts[1..], sep), sep);
      CountCharAppend(parts[0], [sep], sep);
      assert CountChar([sep], sep) == 1 by {
        assert [sep][1..] == [];
      }
    }
  }

  /** Appending one part at the end of a join: what a writer that emits the
      separator before every part but the first produces. */
  lemma {:induction false} JoinWithSnoc(parts: seq<string>, last: string, sep: char)
    ensures JoinWith(parts + [last], sep) ==
      if |parts| == 0 then last else JoinWith(parts, sep) + [sep] + last
  {
    if |parts| == 1 {
      assert parts + [last] == [parts[0], last];
      assert [last][1..] == [];
    } else if |parts| > 1 {
      assert (parts + [last])[1..] == parts[1..] + [last];
      JoinWithSnoc(parts[1..], last, sep);
    }
  }

  lemma {:induction false} SplitWithout(s: string, sep: char)
    requires sep !in s
    ensures SplitOn(s, sep) == [s]
  {
    if |s| > 0 {
      SplitWithout(s[1..], sep);
      assert [s[0]] + s[1..] == s;
    }
  }

  lemma {:induction false} SplitAfterField(p: string, rest: string, sep: char)
    requires sep !in p
    ensures SplitOn(p + [sep] + rest, sep) == [p] + SplitOn(rest, sep)
  {
    if |p| == 0 {
      assert p + [sep] + rest == [sep] + rest;
      assert ([sep] + rest)[1..] == rest;
    } else {
      assert (p + [sep] + rest)[1..] == p[1..] + [sep] + rest;
      SplitAfterField(p[1..], rest, sep);
      assert [p[0]] + p[1..] == p;
    }
  }

  /** Splitting undoes joining when no part contains the separator. */
  lemma {:induction false} SplitJoinRoundTrip(parts: seq<string>, sep: char)
    requires |parts| >= 1
    requires forall k :: 0 <= k < |parts| ==> sep !in parts[k]
    ensures SplitOn(JoinWith(parts, sep), sep) == parts
  {
    if |parts| == 1 {
      SplitWithout(parts[0], sep);
    } else {
      SplitJoinRoundTrip(parts[1..], sep);
      SplitAfterField(parts[0], JoinWith(parts[1..], sep), sep);
      assert [parts[0]] + parts[1..] == parts;
    }
  }
}
