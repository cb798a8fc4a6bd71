/** The java.lang.String and java.lang.Integer operations the SDK relies on.
    Characters are Unicode scalar values; case mapping and digit recognition
    are those of the ASCII range. */
module Text {
  import opened Wrappers

  // ---------------------------------------------------------------- search

  /** `s.startsWith(p, i)` */
  predicate OccursAt(s: string, p: string, i: nat)
  {
    i + |p| <= |s| && s[i..i + |p|] == p
  }

  /** `s.contains(p)` */
  predicate Contains(s: string, p: string)
    decreases |s|
  {
    p <= s || (s != [] && Contains(s[1..], p))
  }

  /** `s.indexOf(c)`, or `|s|` when `c` does not occur. */
  function FirstIndex(s: string, c: char): (i: nat)
    ensures i <= |s| && (i < |s| ==> s[i] == c)
    ensures forall j | 0 <= j < i :: s[j] != c
  {
    if s == [] then 0 else if s[0] == c then 0 else 1 + FirstIndex(s[1..], c)
  }

  /** `s.endsWith(p)` */
  predicate EndsWith(s: string, p: string)
  {
    |p| <= |s| && s[|s| - |p|..] == p
  }

  lemma {:induction false} ContainsAt(s: string, p: string, i: nat)
    requires OccursAt(s, p, i)
    ensures Contains(s, p)
    decreases i
  {
    if i == 0 {
      assert s[..|p|] == p;
    } else {
      assert OccursAt(s[1..], p, i - 1) by {
        assert s[1..][i - 1..i - 1 + |p|] == s[i..i + |p|];
      }
      ContainsAt(s[1..], p, i - 1);
    }
  }

  lemma {:induction false} ContainsWitness(s: string, p: string) returns (i: nat)
    requires Contains(s, p)
    ensures OccursAt(s, p, i)
    decreases |s|
  {
    if p <= s {
      i := 0;
    } else {
      var j := ContainsWitness(s[1..], p);
      assert s[1..][j..j + |p|] == s[j + 1..j + 1 + |p|];
      i := j + 1;
    }
  }

  // ------------------------------------------------------------- rewriting

  /** `s.replace(target, replacement)`: every non-overlapping occurrence,
      scanning from left to right. */
  function Replace(s: string, target: string, replacement: string): string
    requires target != []
    decreases |s|
  {
    if target <= s then replacement + Replace(s[|target|..], target, replacement)
    else if s == [] then []
    else [s[0]] + Replace(s[1..], target, replacement)
  }

  lemma {:induction false} ReplaceAbsent(s: string, target: string, replacement: string)
    requires target != [] && !Contains(s, target)
    ensures Replace(s, target, replacement) == s
    decreases |s|
  {
    if s != [] {
      ReplaceAbsent(s[1..], target, replacement);
    }
  }

  function LowerChar(c: char): char
  {
    if 'A' <= c <= 'Z' then (c as int + 32) as char else c
  }

  /** `s.toLowerCase()` */
  function ToLower(s: string): (r: string)
    ensures |r| == |s|
    ensures forall i | 0 <= i < |s| :: r[i] == LowerChar(s[i])
  {
    if s == [] then [] else [LowerChar(s[0])] + ToLower(s[1..])
  }

  /** `a.equalsIgnoreCase(b)` */
  predicate EqualsIgnoreCase(a: string, b: string)
  {
    ToLower(a) == ToLower(b)
  }

  predicate IsAlphanumeric(c: char)
  {
    'a' <= c <= 'z' || 'A' <= c <= 'Z' || '0' <= c <= '9'
  }

  /** `s.replaceAll("[^a-zA-Z0-9]", "_")` */
  function Sanitize(s: string): (r: string)
    ensures |r| == |s|
    ensures forall i | 0 <= i < |s| :: r[i] == (if IsAlphanumeric(s[i]) then s[i] else '_')
  {
    if s == [] then [] else [if IsAlphanumeric(s[0]) then s[0] else '_'] + Sanitize(s[1..])
  }

  /** `s.trim().isEmpty()`: trim removes every character up to U+0020. */
  predicate IsBlank(s: string)
  {
    forall i | 0 <= i < |s| :: s[i] <= ' '
  }

  function TrimStart(s: string): (r: string)
    ensures r == [] || r[0] > ' '
    decreases |s|
  {
    if s != [] && s[0] <= ' ' then TrimStart(s[1..]) else s
  }

  function TrimEnd(s: string): (r: string)
    ensures r == [] || r[|r| - 1] > ' '
    decreases |s|
  {
    if s != [] && s[|s| - 1] <= ' ' then TrimEnd(s[..|s| - 1]) else s
  }

  /** `s.trim()` */
  function Trim(s: string): string
  {
    TrimEnd(TrimStart(s))
  }

  // ------------------------------------------------------------- splitting

  /** The pieces of `s` around every occurrence of `sep`, trailing empty
      pieces included (`s.split(sep, -1)` for a literal separator). */
  function SplitAll(s: string, sep: string): (parts: seq<string>)
    requires sep != []
    ensures |parts| >= 1
    decreases |s|
  {
    if sep <= s then [""] + SplitAll(s[|sep|..], sep)
    else if s == [] then [""]
    else
      var rest := SplitAll(s[1..], sep);
      [[s[0]] + rest[0]] + rest[1..]
  }

  function DropTrailingEmpty(parts: seq<string>): (r: seq<string>)
    ensures |r| <= |parts| && r == parts[..|r|]
    ensures r == [] || r[|r| - 1] != ""
    ensures forall i | |r| <= i < |parts| :: parts[i] == ""
  {
    if parts == [] then []
    else if parts[|parts| - 1] == "" then DropTrailingEmpty(parts[..|parts| - 1])
    else parts
  }

  /** `s.split(sep)` for a literal separator: the input itself when the
      separator does not occur, else the pieces with trailing empty ones
      removed (so the result can be empty). */
  function Split(s: string, sep: string): seq<string>
    requires sep != []
  {
    if Contains(s, sep) then DropTrailingEmpty(SplitAll(s, sep)) else [s]
  }

  /** `s.split(sep, limit)` for `limit > 0`: at most `limit` pieces, the
      last holding the rest of the input, trailing empty pieces kept. */
  function SplitLimit(s: string, sep: string, limit: nat): (parts: seq<string>)
    requires sep != [] && limit >= 1
    ensures 1 <= |parts| <= limit
    decreases |s|
  {
    if limit == 1 then [s]
    else if sep <= s then [""] + SplitLimit(s[|sep|..], sep, limit - 1)
    else if s == [] then [""]
    else
      var rest := SplitLimit(s[1..], sep, limit);
      [[s[0]] + rest[0]] + rest[1..]
  }

  /** `String.join(sep, parts)` */
  function Join(parts: seq<string>, sep: string): string
  {
    if parts == [] then ""
    else if |parts| == 1 then parts[0]
    else parts[0] + sep + Join(parts[1..], sep)
  }

  lemma JoinConsHead(c: char, rest: seq<string>, sep: string)
    requires |rest| >= 1
    ensures Join([[c] + rest[0]] + rest[1..], sep) == [c] + Join(rest, sep)
  {
    var parts := [[c] + rest[0]] + rest[1..];
    if |rest| > 1 {
      assert parts[1..] == rest[1..];
    }
  }

  lemma JoinConsEmpty(rest: seq<string>, sep: string)
    requires |rest| >= 1
    ensures Join([""] + rest, sep) == sep + Join(rest, sep)
  {
    assert ([""] + rest)[1..] == rest;
  }

  /** Splitting with a limit loses nothing: joining the pieces back with the
      separator gives the input. */
  lemma {:induction false} JoinSplitLimit(s: string, sep: string, limit: nat)
    requires sep != [] && limit >= 1
    ensures Join(SplitLimit(s, sep, limit), sep) == s
    decreases |s|, 1
  {
    if limit == 1 {
    } else if sep <= s {
      JoinSplitLimitAtSeparator(s, sep, limit);
    } else if s == [] {
    } else {
      JoinSplitLimitAtChar(s, sep, limit);
    }
  }

  /** `JoinSplitLimit` when the input starts with the separator. */
  lemma {:induction false} JoinSplitLimitAtSeparator(s: string, sep: string, limit: nat)
    requires sep != [] && limit >= 2 && sep <= s
    ensures Join(SplitLimit(s, sep, limit), sep) == s
    decreases |s|, 0
  {
    var rest := SplitLimit(s[|sep|..], sep, limit - 1);
    calc {
      Join(SplitLimit(s, sep, limit), sep);
      Join([""] + rest, sep);
      { JoinConsEmpty(rest, sep); }
      sep + Join(rest, sep);
      { JoinSplitLimit(s[|sep|..], sep, limit - 1); }
      sep + s[|sep|..];
      s;
    }
  }

  /** `JoinSplitLimit` when the input starts with a character that does not
      begin the separator. */
  lemma {:induction false} JoinSplitLimitAtChar(s: string, sep: string, limit: nat)
    requires sep != [] && limit >= 2 && !(sep <= s) && s != []
    ensures Join(SplitLimit(s, sep, limit), sep) == s
    decreases |s|, 0
  {
    var rest := SplitLimit(s[1..], sep, limit);
    calc {
      Join(SplitLimit(s, sep, limit), sep);
      Join([[s[0]] + rest[0]] + rest[1..], sep);
      { JoinConsHead(s[0], rest, sep); }
      [s[0]] + Join(rest, sep);
      { JoinSplitLimit(s[1..], sep, limit); }
      [s[0]] + s[1..];
      s;
    }
  }

  /** The same for splitting at every occurrence. */
  lemma {:induction false} JoinSplitAll(s: string, sep: string)
    requires sep != []
    ensures Join(SplitAll(s, sep), sep) == s
    decreases |s|
  {
    if sep <= s {
      JoinSplitAll(s[|sep|..], sep);
      JoinConsEmpty(SplitAll(s[|sep|..], sep), sep);
      assert s == sep + s[|sep|..];
    } else if s == [] {
    } else {
      var rest := SplitAll(s[1..], sep);
      JoinSplitAll(s[1..], sep);
      JoinConsHead(s[0], rest, sep);
      assert s == [s[0]] + s[1..];
    }
  }

  /** A separator splits the input into more than one piece exactly when it
      occurs in it. */
  lemma {:induction false} SplitAllContains(s: string, sep: string)
    requires sep != []
    ensures |SplitAll(s, sep)| > 1 <==> Contains(s, sep)
    decreases |s|
  {
    if sep <= s {
    } else if s == [] {
    } else {
      SplitAllContains(s[1..], sep);
    }
  }

  /** A piece in which the separator never starts is not split. */
  lemma {:induction false} SplitAllNone(s: string, sep: string)
    requires sep != []
    requires forall i | 0 <= i < |s| :: !(sep <= s[i..])
    ensures SplitAll(s, sep) == [s]
    decreases |s|
  {
    if s != [] {
      assert !(sep <= s[0..]);
      assert s[0..] == s;
      forall i | 0 <= i < |s[1..]| ensures !(sep <= s[1..][i..]) {
        assert s[1..][i..] == s[i + 1..];
      }
      SplitAllNone(s[1..], sep);
      assert [s[0]] + s[1..] == s;
    } else {
      assert !(sep <= s);
    }
  }

  /** The piece before the first occurrence comes off whole. */
  lemma {:induction false} SplitAllFirst(a: string, b: string, sep: string)
    requires sep != []
    requires forall i | 0 <= i < |a| :: !(sep <= (a + sep + b)[i..])
    ensures SplitAll(a + sep + b, sep) == [a] + SplitAll(b, sep)
    decreases |a|
  {
    var s := a + sep + b;
    if a == [] {
      assert s == sep + b && s[|sep|..] == b;
    } else {
      assert !(sep <= s) by { assert s[0..] == s; }
      var t := a[1..] + sep + b;
      assert s[1..] == t;
      forall i | 0 <= i < |a[1..]| ensures !(sep <= t[i..]) {
        assert t[i..] == s[i + 1..];
      }
      var rest := SplitAll(t, sep);
      calc {
        SplitAll(s, sep);
        [[s[0]] + rest[0]] + rest[1..];
        { SplitAllFirst(a[1..], b, sep); }
        [[a[0]] + a[1..]] + SplitAll(b, sep);
        { assert [a[0]] + a[1..] == a; }
        [a] + SplitAll(b, sep);
      }
    }
  }

  /** Splitting undoes joining when no piece holds the (one-character)
      separator. */
  lemma {:induction false} SplitAllJoin(parts: seq<string>, c: char)
    requires |parts| >= 1
    requires forall k | 0 <= k < |parts| :: c !in parts[k]
    ensures SplitAll(Join(parts, [c]), [c]) == parts
    decreases |parts|
  {
    var a := parts[0];
    if |parts| == 1 {
      forall i | 0 <= i < |a| ensures !([c] <= a[i..]) {
        assert a[i..][0] == a[i];
      }
      SplitAllNone(a, [c]);
    } else {
      var rest := parts[1..];
      var b := Join(rest, [c]);
      forall i | 0 <= i < |a| ensures !([c] <= (a + [c] + b)[i..]) {
        assert (a + [c] + b)[i..][0] == a[i];
      }
      SplitAllFirst(a, b, [c]);
      SplitAllJoin(rest, c);
      assert [a] + rest == parts;
    }
  }

  // ------------------------------------------------------- integers as text

  function DigitChar(d: nat): char
    requires d < 10
  {
    ('0' as int + d) as char
  }

  predicate IsDigit(c: char)
  {
    '0' <= c <= '9'
  }

  predicate AllDigits(s: string)
  {
    forall i | 0 <= i < |s| :: IsDigit(s[i])
  }

  /** `Integer.toString(n)` for a non-negative `n` */
  function NatToString(n: nat): (r: string)
    ensures r != [] && AllDigits(r)
  {
    if n < 10 then [DigitChar(n)] else NatToString(n / 10) + [DigitChar(n % 10)]
  }

  /** `Long.toString(n)` */
  function IntToString(n: int): string
  {
    if n < 0 then "-" + NatToString(-n) else NatToString(n)
  }

  function DigitsValue(s: string): nat
    requires AllDigits(s)
  {
    if s == [] then 0 else DigitsValue(s[..|s| - 1]) * 10 + (s[|s| - 1] as int - '0' as int)
  }

  /** The integer an optional sign followed by decimal digits denotes, as
      `Long.parseLong` reads it before its range check. */
  function ParseIntegral(s: string): Option<int>
  {
    if |s| > 1 && (s[0] == '-' || s[0] == '+') && AllDigits(s[1..]) then
      Some(if s[0] == '-' then -(DigitsValue(s[1..]) as int) else DigitsValue(s[1..]))
    else if |s| > 0 && AllDigits(s) then Some(DigitsValue(s))
    else None
  }

  lemma {:induction false} DigitsOfNat(n: nat)
    ensures DigitsValue(NatToString(n)) == n
  {
    if n >= 10 {
      var s := NatToString(n);
      DigitsOfNat(n / 10);
      assert s[..|s| - 1] == NatToString(n / 10);
    }
  }

  /** Decimal rendering and parsing are inverse. */
  lemma ParseIntToString(n: int)
    ensures ParseIntegral(IntToString(n)) == Some(n)
  {
    var d := NatToString(if n < 0 then -n else n);
    DigitsOfNat(if n < 0 then -n else n);
    ParseDigits(d);
  }

  /** Digits, with or without a minus sign, read as their value. */
  lemma ParseDigits(d: string)
    requires d != [] && AllDigits(d)
    ensures ParseIntegral(d) == Some(DigitsValue(d) as int)
    ensures ParseIntegral("-" + d) == Some(-(DigitsValue(d) as int))
  {
    assert IsDigit(d[0]);
    assert ("-" + d)[1..] == d;
  }

  function StripTrailingZeros(s: string): (r: string)
    ensures r == [] || r[|r| - 1] != '0'
  {
    if s != [] && s[|s| - 1] == '0' then StripTrailingZeros(s[..|s| - 1]) else s
  }

  /** A string split by `StripTrailingZeros` is its stripped prefix
      followed by zeros only. */
  lemma {:induction false} StripTrailingZerosSplit(s: string)
    ensures var r := StripTrailingZeros(s);
      |r| <= |s| && s[..|r|] == r && forall i | |r| <= i < |s| :: s[i] == '0'
    decreases |s|
  {
    if s != [] && s[|s| - 1] == '0' {
      StripTrailingZerosSplit(s[..|s| - 1]);
    }
  }

  function Pow10(n: nat): (r: nat)
    ensures r >= 1
  {
    if n == 0 then 1 else 10 * Pow10(n - 1)
  }

  /** The length of the run of decimal digits in `t` that starts at `i`. */
  function DigitRun(t: string, i: nat): (n: nat)
    requires i <= |t|
    ensures i + n <= |t| && (i + n == |t| || !IsDigit(t[i + n]))
    ensures forall k | i <= k < i + n :: IsDigit(t[k])
    decreases |t| - i
  {
    if i < |t| && IsDigit(t[i]) then 1 + DigitRun(t, i + 1) else 0
  }

  /** A run of digits ended by a non-digit or by the end is the run. */
  lemma {:induction false} DigitRunExact(t: string, i: nat, n: nat)
    requires i + n <= |t| && (i + n == |t| || !IsDigit(t[i + n]))
    requires forall k | i <= k < i + n :: IsDigit(t[k])
    ensures DigitRun(t, i) == n
    decreases n
  {
    if n > 0 {
      DigitRunExact(t, i + 1, n - 1);
    }
  }

  /** Writing one more digit `d` after a number shifts its every part. */
  lemma ShiftByTen(x: int, p: int, y: int, d: int)
    ensures (x * p + y) * 10 + d == x * (p * 10) + (y * 10 + d)
  {
  }

  /** Digits written after other digits shift them by a power of ten. */
  lemma {:induction false} DigitsValueAppend(a: string, b: string)
    requires AllDigits(a) && AllDigits(b)
    ensures AllDigits(a + b)
    ensures DigitsValue(a + b) == DigitsValue(a) * Pow10(|b|) + DigitsValue(b)
    decreases |b|
  {
    assert AllDigits(a + b) by {
      forall i | 0 <= i < |a + b| ensures IsDigit((a + b)[i]) {
        if i >= |a| { assert (a + b)[i] == b[i - |a|]; }
      }
    }
    if b == [] {
      assert a + b == a;
    } else {
      var b' := b[..|b| - 1];
      assert (a + b)[..|a + b| - 1] == a + b';
      assert (a + b)[|a + b| - 1] == b[|b| - 1];
      DigitsValueAppend(a, b');
      var d := b[|b| - 1] as int - '0' as int;
      assert DigitsValue(a + b) == DigitsValue(a + b') * 10 + d;
      assert DigitsValue(b) == DigitsValue(b') * 10 + d;
      assert Pow10(|b|) == Pow10(|b'|) * 10;
      ShiftByTen(DigitsValue(a), Pow10(|b'|), DigitsValue(b'), d);
    }
  }

  /** Zeros are worth nothing. */
  lemma {:induction false} DigitsValueZeros(z: string)
    requires forall i | 0 <= i < |z| :: z[i] == '0'
    ensures AllDigits(z) && DigitsValue(z) == 0
    decreases |z|
  {
    if z != [] {
      DigitsValueZeros(z[..|z| - 1]);
    }
  }

  /** The digits after the leading one, with trailing zeros dropped,
      scaled back by the zeros dropped, are worth the digits. */
  lemma StrippedDigits(digits: string)
    requires AllDigits(digits) && |digits| >= 1
    ensures var f := StripTrailingZeros(digits[1..]);
      |f| <= |digits| - 1 && AllDigits(f) && AllDigits([digits[0]] + f)
      && DigitsValue(digits) == DigitsValue([digits[0]] + f) * Pow10(|digits| - 1 - |f|)
  {
    var rest := digits[1..];
    var fraction := StripTrailingZeros(rest);
    StripTrailingZerosSplit(rest);
    var z := rest[|fraction|..];
    assert digits == ([digits[0]] + fraction) + z;
    assert AllDigits(fraction) by {
      forall i | 0 <= i < |fraction| ensures IsDigit(fraction[i]) {
        assert fraction[i] == digits[i + 1];
      }
    }
    assert AllDigits([digits[0]]);
    DigitsValueAppend([digits[0]], fraction);
    DigitsValueZeros(z);
    DigitsValueAppend([digits[0]] + fraction, z);
  }

  lemma SciFractionDigits(digits: string)
    requires AllDigits(digits) && |digits| >= 2
    ensures AllDigits(SciFraction(digits)) && |SciFraction(digits)| <= |digits| - 1
  {
    StrippedDigits(digits);
  }

  /** One more factor of ten is one more power. */
  lemma ShiftOnce(lead: nat, k: nat)
    requires k >= 1
    ensures (lead * 10) * Pow10(k - 1) == lead * Pow10(k)
  {
    var p := Pow10(k - 1);
    assert Pow10(k) == 10 * p;
  }

  /** A string that starts and ends beyond U+0020 is its own trim. */
  lemma TrimUnchanged(s: string)
    requires s != [] && s[0] > ' ' && s[|s| - 1] > ' '
    ensures Trim(s) == s
  {
    assert TrimStart(s) == s;
  }

  /** The digits after the point in `Double.toString`'s scientific
      notation: those after the leading one, trailing zeros dropped, or a
      single zero when none is left. */
  function SciFraction(digits: string): (r: string)
    requires |digits| >= 1
    ensures r != []
  {
    var fraction := StripTrailingZeros(digits[1..]);
    if fraction == [] then "0" else fraction
  }

  /** `Double.toString(n)` for an integral value `n`: plain notation below
      10^7, computerized scientific notation from there on. */
  function DoubleToString(n: int): string
  {
    if -10_000_000 < n < 10_000_000 then IntToString(n) + ".0"
    else
      var digits := NatToString(if n < 0 then -n else n);
      (if n < 0 then "-" else "") + [digits[0]] + "." + SciFraction(digits) + "E" + NatToString(|digits| - 1)
  }

  /** `Arrays.toString(values)` */
  function ArrayToString(values: seq<string>): string
  {
    "[" + Join(values, ", ") + "]"
  }
}
