/** The string routines of Go's standard library and of the gf toolkit that the
    adapters' decisions rest on: `strings.Split`, `strings.Replace(…, -1)`,
    `strings.LastIndex`, the integer conversion `gconv.Int`, the float
    conversion `gconv.Float64` (on exact decimals) and `%d`-style printing. */
module Strings {

  predicate StartsWith(s: string, prefix: string) {
    |prefix| <= |s| && s[..|prefix|] == prefix
  }

  /** `sep` occurs in `s` starting at index `i`. */
  predicate OccursAt(s: string, sep: string, i: int) {
    0 <= i && i + |sep| <= |s| && s[i..i + |sep|] == sep
  }

  /** `sep` occurs somewhere in `s`. */
  predicate Contains(s: string, sep: string) {
    exists i :: 0 <= i <= |s| && OccursAt(s, sep, i)
  }

  /** The occurrences in `s[1..]` are those in `s`, one place earlier. */
  lemma OccursInTail(s: string, sep: string, i: int)
    requires |s| > 0 && 0 <= i
    ensures OccursAt(s[1..], sep, i) == OccursAt(s, sep, i + 1)
  {
    if i + |sep| <= |s| - 1 {
      assert s[1..][i..i + |sep|] == s[i + 1..i + 1 + |sep|];
    }
  }

  /** `strings.Split(s, sep)` for a non-empty separator: the pieces between the
      leftmost non-overlapping occurrences of `sep`. */
  function Split(s: string, sep: string): (r: seq<string>)
    requires |sep| > 0
    ensures |r| >= 1
    decreases |s|
  {
    if |s| < |sep| then [s]
    else if s[..|sep|] == sep then [""] + Split(s[|sep|..], sep)
    else
      var rest := Split(s[1..], sep);
      [[s[0]] + rest[0]] + rest[1..]
  }

  /** `strings.Join(pieces, sep)`, the inverse of `Split`. */
  function Join(pieces: seq<string>, sep: string): string
    requires |pieces| >= 1
    decreases |pieces|
  {
    if |pieces| == 1 then pieces[0] else pieces[0] + sep + Join(pieces[1..], sep)
  }

  /** Splitting loses nothing: joining the pieces back gives the original string. */
  lemma {:induction false} SplitJoin(s: string, sep: string)
    requires |sep| > 0
    ensures Join(Split(s, sep), sep) == s
    decreases |s|
  {
    if |s| < |sep| {
    } else if s[..|sep|] == sep {
      var t := s[|sep|..];
      SplitJoin(t, sep);
      assert s == sep + t;
      SplitAfterSep(t, sep);
      JoinEmptyFirst(Split(t, sep), sep);
    } else {
      SplitJoin(s[1..], sep);
      JoinAfterChar(s, sep);
    }
  }

  /** A leading separator splits off an empty first piece. */
  lemma SplitAfterSep(t: string, sep: string)
    requires |sep| > 0
    ensures Split(sep + t, sep) == [""] + Split(t, sep)
  {
    var s := sep + t;
    assert s[..|sep|] == sep && s[|sep|..] == t;
  }

  /** Joining after an empty first piece starts with the separator. */
  lemma JoinEmptyFirst(rest: seq<string>, sep: string)
    requires |rest| >= 1
    ensures Join([""] + rest, sep) == sep + Join(rest, sep)
  {
    assert ([""] + rest)[1..] == rest;
    assert "" + sep + Join(rest, sep) == sep + Join(rest, sep);
  }

  /** The step of `SplitJoin` for a string not starting with the separator. */
  lemma JoinAfterChar(s: string, sep: string)
    requires |sep| > 0 && |s| >= |sep| && s[..|sep|] != sep
    requires Join(Split(s[1..], sep), sep) == s[1..]
    ensures Join(Split(s, sep), sep) == s
  {
    var rest := Split(s[1..], sep);
    assert Split(s, sep) == [[s[0]] + rest[0]] + rest[1..];
    JoinExtendsFirst(s[0], rest, sep);
    assert s == [s[0]] + s[1..];
  }

  /** Joining all pieces but the first gives the second piece, then either
      nothing or a separator and the rest. */
  lemma JoinTail(parts: seq<string>, sep: string) returns (rest: string)
    requires |parts| >= 2
    ensures Join(parts[1..], sep) == parts[1] + rest
    ensures rest == [] || StartsWith(rest, sep)
  {
    if |parts| == 2 {
      rest := [];
      assert parts[1..] == [parts[1]];
      assert parts[1] + rest == parts[1];
    } else {
      var more := Join(parts[2..], sep);
      assert parts[1..][1..] == parts[2..];
      rest := sep + more;
      assert Join(parts[1..], sep) == parts[1] + sep + more;
      assert parts[1] + sep + more == parts[1] + rest;
      assert rest[..|sep|] == sep;
    }
  }

  /** Putting a character in front of the first piece puts it in front of the join. */
  lemma JoinExtendsFirst(c: char, pieces: seq<string>, sep: string)
    requires |pieces| >= 1
    ensures Join([[c] + pieces[0]] + pieces[1..], sep) == [c] + Join(pieces, sep)
  {
    var p := [[c] + pieces[0]] + pieces[1..];
    if |pieces| > 1 {
      assert p[1..] == pieces[1..];
      assert ([c] + pieces[0]) + sep + Join(pieces[1..], sep) == [c] + (pieces[0] + sep + Join(pieces[1..], sep));
    }
  }

  /** The first piece is a prefix of the input. */
  lemma {:induction false} SplitFirstIsPrefix(s: string, sep: string)
    requires |sep| > 0
    ensures Split(s, sep)[0] <= s
    decreases |s|
  {
    if |s| < |sep| {
    } else if s[..|sep|] == sep {
    } else {
      SplitFirstIsPrefix(s[1..], sep);
    }
  }

  /** No piece contains the separator, so together with `SplitJoin` the pieces
      are exactly the text between occurrences. */
  lemma {:induction false} SplitPiecesAreFree(s: string, sep: string)
    requires |sep| > 0
    ensures forall k :: 0 <= k < |Split(s, sep)| ==> !Contains(Split(s, sep)[k], sep)
    decreases |s|
  {
    if |s| < |sep| {
    } else if s[..|sep|] == sep {
      SplitPiecesAreFree(s[|sep|..], sep);
      var r := Split(s, sep);
      forall k | 0 <= k < |r| ensures !Contains(r[k], sep) {
        if k > 0 {
          assert r[k] == Split(s[|sep|..], sep)[k - 1];
        }
      }
    } else {
      var rest := Split(s[1..], sep);
      SplitPiecesAreFree(s[1..], sep);
      SplitFirstIsPrefix(s[1..], sep);
      var first := [s[0]] + rest[0];
      assert first <= s;
      forall i | 0 <= i && i + |sep| <= |first| ensures !OccursAt(first, sep, i) {
        if i == 0 {
          assert first[..|sep|] == s[..|sep|];
        } else {
          assert first[i..i + |sep|] == rest[0][i - 1..i - 1 + |sep|];
          assert !OccursAt(rest[0], sep, i - 1);
        }
      }
      var r := Split(s, sep);
      forall k | 0 <= k < |r| ensures !Contains(r[k], sep) {
        if k > 0 {
          assert r[k] == rest[k];
        }
      }
    }
  }

  /** A string without the separator is its own single piece. */
  lemma {:induction false} SplitAbsent(s: string, sep: string)
    requires |sep| > 0
    requires !Contains(s, sep)
    ensures Split(s, sep) == [s]
    decreases |s|
  {
    if |s| < |sep| {
    } else {
      assert !OccursAt(s, sep, 0);
      var t := s[1..];
      forall i | 0 <= i <= |t| ensures !OccursAt(t, sep, i) {
        OccursInTail(s, sep, i);
      }
      SplitAbsent(t, sep);
      assert s == [s[0]] + t;
    }
  }

  /** When the first occurrence of `sep` in `a + sep + t` is the one after `a`
      (no occurrence starts inside `a`), the first piece is `a`. */
  lemma {:induction false} SplitAtFirst(a: string, sep: string, t: string)
    requires |sep| > 0
    requires !Contains(a + sep[..|sep| - 1], sep)
    ensures Split(a + sep + t, sep) == [a] + Split(t, sep)
    decreases |a|
  {
    var s := a + sep + t;
    if |a| == 0 {
      assert s == sep + t;
      assert s[..|sep|] == sep;
      assert s[|sep|..] == t;
    } else {
      var h := a + sep[..|sep| - 1];
      assert !OccursAt(h, sep, 0);
      assert h[0..|sep|] == s[..|sep|];
      var a' := a[1..];
      var h' := a' + sep[..|sep| - 1];
      assert h' == h[1..];
      forall i | 0 <= i <= |h'| ensures !OccursAt(h', sep, i) {
        OccursInTail(h, sep, i);
      }
      SplitAtFirst(a', sep, t);
      assert s[1..] == a' + sep + t;
      assert [s[0]] + a' == a;
    }
  }

  /** `strings.Replace(s, pat, rep, -1)`: every leftmost non-overlapping
      occurrence of `pat` is replaced by `rep`. */
  function ReplaceAll(s: string, pat: string, rep: string): string
    requires |pat| > 0
    decreases |s|
  {
    if |s| < |pat| then s
    else if s[..|pat|] == pat then rep + ReplaceAll(s[|pat|..], pat, rep)
    else [s[0]] + ReplaceAll(s[1..], pat, rep)
  }

  /** Replacing an absent pattern changes nothing. */
  lemma {:induction false} ReplaceAbsent(s: string, pat: string, rep: string)
    requires |pat| > 0
    requires !Contains(s, pat)
    ensures ReplaceAll(s, pat, rep) == s
    decreases |s|
  {
    if |s| >= |pat| {
      assert !OccursAt(s, pat, 0);
      var t := s[1..];
      forall i | 0 <= i <= |t| ensures !OccursAt(t, pat, i) {
        OccursInTail(s, pat, i);
      }
      ReplaceAbsent(t, pat, rep);
      assert s == [s[0]] + t;
    }
  }

  /** A prefix none of whose characters can start `pat` is copied unchanged. */
  lemma {:induction false} ReplaceSkipsPrefix(a: string, t: string, pat: string, rep: string)
    requires |pat| > 0
    requires forall i :: 0 <= i < |a| ==> a[i] != pat[0]
    ensures ReplaceAll(a + t, pat, rep) == a + ReplaceAll(t, pat, rep)
    decreases |a|
  {
    if |a| == 0 {
      assert a + t == t;
    } else {
      var s := a + t;
      if |s| < |pat| {
        assert ReplaceAll(t, pat, rep) == t;
      } else {
        assert s[..|pat|][0] == a[0];
        ReplaceSkipsPrefix(a[1..], t, pat, rep);
        assert s[1..] == a[1..] + t;
        assert [a[0]] + a[1..] == a;
        assert ReplaceAll(s, pat, rep) == [a[0]] + (a[1..] + ReplaceAll(t, pat, rep));
      }
    }
  }

  /** The index of the last occurrence of `c` in `s`, or -1 (`strings.LastIndex`
      with a one-character pattern). */
  function LastIndexOf(s: string, c: char): (r: int)
    ensures -1 <= r < |s|
    ensures r >= 0 ==> s[r] == c
    ensures forall j :: r < j < |s| ==> s[j] != c
    decreases |s|
  {
    if |s| == 0 then -1
    else if s[|s| - 1] == c then |s| - 1
    else LastIndexOf(s[..|s| - 1], c)
  }

  /** The text after the last `c` (all of `s` when there is none). */
  function AfterLast(s: string, c: char): string {
    s[LastIndexOf(s, c) + 1..]
  }

  predicate IsDigit(c: char) {
    '0' <= c <= '9'
  }

  predicate AllDigits(s: string) {
    forall i :: 0 <= i < |s| ==> IsDigit(s[i])
  }

  /** The value of a string of decimal digits, most significant first. */
  function DigitsValue(s: string): (n: nat)
    requires AllDigits(s)
    decreases |s|
  {
    if |s| == 0 then 0
    else DigitsValue(s[..|s| - 1]) * 10 + (s[|s| - 1] as int - '0' as int)
  }

  function DigitChar(d: nat): char
    requires d < 10
  {
    ('0' as int + d) as char
  }

  /** The decimal rendering of a natural number, as `%d` and `%.0f` print it. */
  function NatToString(n: nat): (s: string)
    ensures |s| >= 1 && AllDigits(s)
    decreases n
  {
    if n < 10 then [DigitChar(n)] else NatToString(n / 10) + [DigitChar(n % 10)]
  }

  /** Printing then parsing a number gives it back. */
  lemma {:induction false} NatToStringRoundTrip(n: nat)
    ensures DigitsValue(NatToString(n)) == n
    decreases n
  {
    if n >= 10 {
      NatToStringRoundTrip(n / 10);
      var s := NatToString(n);
      assert s[..|s| - 1] == NatToString(n / 10);
    }
  }

  /** `gconv.Int` on a string: an optional sign, then decimal digits or a
      decimal of the form `D.`, `.D` or `D.D`, truncated toward zero; any
      other text gives 0. */
  function IntOrZero(s: string): (n: int)
    ensures |s| > 0 && s[0] == '-' ==> n <= 0
    ensures !(|s| > 0 && s[0] == '-') ==> n >= 0
  {
    var signed := |s| > 0 && (s[0] == '-' || s[0] == '+');
    var magnitude := IntegerPart(if signed then s[1..] else s);
    if signed && s[0] == '-' then 0 - magnitude else magnitude
  }

  /** The integer part of an unsigned decimal, 0 for any other text. */
  function IntegerPart(s: string): nat {
    var ps := Split(s, ".");
    if |ps| == 1 && |s| > 0 && AllDigits(s) then DigitsValue(s)
    else if |ps| == 2 && AllDigits(ps[0]) && AllDigits(ps[1]) && |ps[0]| + |ps[1]| > 0 then DigitsValue(ps[0])
    else 0
  }

  /** The integer part is the exact decimal value with its fraction cut off,
      as converting the float reading to an integer does. */
  lemma IntegerPartIsFloor(s: string)
    ensures IntegerPart(s) == DecimalOrZero(s).Floor
  {
    var ps := Split(s, ".");
    if !(|ps| == 1 && |s| > 0 && AllDigits(s)) && |ps| == 2 && AllDigits(ps[0]) && AllDigits(ps[1]) && |ps[0]| + |ps[1]| > 0 {
      FractionBelowOne(ps[1]);
      FloorOfFraction(DigitsValue(ps[0]), DigitsValue(ps[1]) as real / Pow10(|ps[1]|) as real);
    }
  }

  /** A decimal with a fractional part reads as its integer part, with the
      sign kept: `1024.5` is 1024 and `-7.9` is -7. */
  lemma IntOrZeroTruncates(whole: string, fraction: string)
    requires |whole| > 0 && AllDigits(whole) && AllDigits(fraction)
    ensures IntOrZero(whole + "." + fraction) == DigitsValue(whole)
    ensures IntOrZero("-" + whole + "." + fraction) == 0 - DigitsValue(whole)
  {
    var s := whole + "." + fraction;
    IntegerPartOfDecimal(whole, fraction);
    assert s[0] == whole[0];
    UnsignedReading(s);
    NegatedReading(s);
    assert "-" + whole + "." + fraction == "-" + s;
  }

  lemma UnsignedReading(s: string)
    requires |s| > 0 && IsDigit(s[0])
    ensures IntOrZero(s) == IntegerPart(s)
  {
  }

  lemma NegatedReading(s: string)
    ensures IntOrZero("-" + s) == 0 - IntegerPart(s)
  {
    assert ("-" + s)[1..] == s;
  }

  lemma IntegerPartOfDecimal(whole: string, fraction: string)
    requires |whole| > 0 && AllDigits(whole) && AllDigits(fraction)
    ensures IntegerPart(whole + "." + fraction) == DigitsValue(whole)
  {
    SplitAtDot(whole, fraction);
  }

  lemma FloorOfFraction(w: int, f: real)
    requires 0.0 <= f < 1.0
    ensures (w as real + f).Floor == w
  {
  }

  /** Plain decimal digits read as their value. */
  lemma IntOrZeroDigits(s: string)
    requires AllDigits(s)
    ensures IntOrZero(s) == DigitsValue(s)
  {
    if |s| > 0 {
      DigitsLackDot(s);
      SplitAbsent(s, ".");
    }
  }

  lemma DigitsLackDot(s: string)
    requires AllDigits(s)
    ensures !Contains(s, ".")
  {
    forall i | 0 <= i <= |s| ensures !OccursAt(s, ".", i) {
      if i < |s| {
        assert s[i..i + 1] == [s[i]];
      }
    }
  }

  /** `k` digits stand for less than `10^k`. */
  lemma {:induction false} FractionBelowOne(fraction: string)
    requires AllDigits(fraction)
    ensures DigitsValue(fraction) < Pow10(|fraction|)
    ensures DigitsValue(fraction) as real / Pow10(|fraction|) as real < 1.0
    decreases |fraction|
  {
    if |fraction| > 0 {
      var init := fraction[..|fraction| - 1];
      assert AllDigits(init);
      FractionBelowOne(init);
    }
    RatioBelowOne(DigitsValue(fraction), Pow10(|fraction|));
  }

  lemma RatioBelowOne(d: nat, p: nat)
    requires d < p
    ensures d as real / p as real < 1.0
  {
    var q := d as real / p as real;
    assert q * p as real == d as real;
  }

  lemma SplitAtDot(whole: string, fraction: string)
    requires AllDigits(whole) && AllDigits(fraction)
    ensures Split(whole + "." + fraction, ".") == [whole, fraction]
  {
    DigitsLackDot(whole);
    DigitsLackDot(fraction);
    assert "."[..0] == [];
    assert whole + "."[..0] == whole;
    SplitAtFirst(whole, ".", fraction);
    SplitAbsent(fraction, ".");
  }

  function Pow10(k: nat): (p: nat)
    ensures p >= 1
  {
    if k == 0 then 1 else 10 * Pow10(k - 1)
  }

  /** `gconv.Float64` on a string of the form `D`, `D.`, `.D` or `D.D` (decimal
      digits), computed exactly; any other text gives 0. */
  function DecimalOrZero(s: string): (v: real)
    ensures v >= 0.0
  {
    var ps := Split(s, ".");
    if |ps| == 1 && |s| > 0 && AllDigits(s) then DigitsValue(s) as real
    else if |ps| == 2 && AllDigits(ps[0]) && AllDigits(ps[1]) && |ps[0]| + |ps[1]| > 0 then
      DigitsValue(ps[0]) as real + DigitsValue(ps[1]) as real / Pow10(|ps[1]|) as real
    else 0.0
  }

  /** `math.Round` on a non-negative value: halves round up. */
  function RoundHalfUp(v: real): (n: int)
    requires v >= 0.0
    ensures n >= 0
    ensures v - 0.5 < n as real <= v + 0.5
  {
    (v + 0.5).Floor
  }

  /** The number of bytes of the UTF-8 encoding of `s` (Go's `len` of a string). */
  function ByteLength(s: string): (n: nat)
    ensures n >= |s|
    decreases |s|
  {
    if |s| == 0 then 0
    else
      var c := s[0] as int;
      (if c < 0x80 then 1 else if c < 0x800 then 2 else if c < 0x10000 then 3 else 4)
      + ByteLength(s[1..])
  }
}
