/** The JavaScript string helpers the repository relies on: decimal printing, slicing and
    padding, trimming, and the code-unit order in which ids are sorted. */
module Text {

  // ---------- Decimal numerals ----------

  function Pow10(n: nat): (p: nat)
    ensures p > 0
  {
    if n == 0 then 1 else 10 * Pow10(n - 1)
  }

  predicate IsDigit(c: char) {
    '0' <= c <= '9'
  }

  predicate AllDigits(s: string) {
    forall i | 0 <= i < |s| :: IsDigit(s[i])
  }

  /** `n.toString()`. */
  function Decimal(n: nat): (s: string)
    ensures |s| > 0 && AllDigits(s)
  {
    var last := '0' + (n % 10) as char;
    if n < 10 then [last] else Decimal(n / 10) + [last]
  }

  /** `BigInt(s)` for a string of digits; the empty string reads as zero, as it does there. */
  function Value(s: string): nat
    requires AllDigits(s)
  {
    if s == "" then 0 else 10 * Value(s[..|s| - 1]) + (s[|s| - 1] as int - '0' as int)
  }

  lemma {:induction false} DecimalReadsBack(n: nat)
    ensures Value(Decimal(n)) == n
  {
    if n >= 10 {
      DecimalReadsBack(n / 10);
      assert Decimal(n)[..|Decimal(n)| - 1] == Decimal(n / 10);
    }
  }

  /** `v.toString()` for a bigint. */
  function PrintInt(v: int): string {
    if v < 0 then "-" + Decimal(-v) else Decimal(v)
  }

  lemma PrintIntIsInjective(n: int, m: int)
    ensures PrintInt(n) == PrintInt(m) <==> n == m
  {
    DecimalReadsBack(if n < 0 then -n else n);
    DecimalReadsBack(if m < 0 then -m else m);
    if (n < 0) != (m < 0) {
      assert PrintInt(n)[0] != PrintInt(m)[0];
    } else if n < 0 {
      assert PrintInt(n)[1..] == Decimal(-n) && PrintInt(m)[1..] == Decimal(-m);
    }
  }

  /** v followed by n zeros. */
  function Shifted(v: nat, n: nat): nat {
    if n == 0 then v else 10 * Shifted(v, n - 1)
  }

  lemma {:induction false} ShiftedIs(v: nat, n: nat)
    ensures Shifted(v, n) == v * Pow10(n)
  {
    if n > 0 {
      var p := Pow10(n - 1);
      ShiftedIs(v, n - 1);
      assert 10 * (v * p) == v * (10 * p);
    }
  }

  lemma ValueSnoc(front: string, c: char)
    requires AllDigits(front) && IsDigit(c)
    ensures AllDigits(front + [c]) && Value(front + [c]) == 10 * Value(front) + (c as int - '0' as int)
  {
    assert (front + [c])[..|front|] == front;
  }

  lemma {:induction false} ValueOfShifted(a: string, b: string)
    requires AllDigits(a) && AllDigits(b)
    ensures AllDigits(a + b)
    ensures Value(a + b) == Shifted(Value(a), |b|) + Value(b)
  {
    if b == "" {
      assert a + b == a;
    } else {
      var front := b[..|b| - 1];
      var c := b[|b| - 1];
      ValueOfShifted(a, front);
      assert b == front + [c] && a + b == (a + front) + [c];
      ValueSnoc(a + front, c);
      ValueSnoc(front, c);
    }
  }

  lemma ValueOfConcat(a: string, b: string)
    requires AllDigits(a) && AllDigits(b)
    ensures AllDigits(a + b)
    ensures Value(a + b) == Value(a) * Pow10(|b|) + Value(b)
  {
    ValueOfShifted(a, b);
    ShiftedIs(Value(a), |b|);
  }

  lemma {:induction false} ValueBelowPow10(s: string)
    requires AllDigits(s)
    ensures Value(s) < Pow10(|s|)
  {
    if s != "" {
      ValueBelowPow10(s[..|s| - 1]);
    }
  }

  lemma {:induction false} ValueOfZeros(n: nat)
    ensures AllDigits(Repeat('0', n))
    ensures Value(Repeat('0', n)) == 0
  {
    if n > 0 {
      ValueOfZeros(n - 1);
      assert Repeat('0', n)[..n - 1] == Repeat('0', n - 1);
    }
  }

  // ---------- Fixed-width fields ----------

  function Repeat(c: char, n: nat): (s: string)
    ensures |s| == n && forall i | 0 <= i < n :: s[i] == c
  {
    seq(n, _ => c)
  }

  /** `field(value, length, fill, right)`: keep one end of the text and pad the other. */
  function Field(value: string, length: nat, fill: char := ' ', right: bool := false): (s: string)
    requires length > 0
    ensures |s| == length
  {
    if right then
      var kept := if |value| > length then value[|value| - length..] else value;
      Repeat(fill, length - |kept|) + kept
    else
      var kept := if |value| > length then value[..length] else value;
      kept + Repeat(fill, length - |kept|)
  }

  /** A right-aligned zero-filled field. */
  function Digits(value: string, length: nat): (s: string)
    requires length > 0
    ensures |s| == length
  {
    Field(value, length, '0', true)
  }

  lemma DigitsOfLongText(s: string, n: nat)
    requires n > 0 && AllDigits(s) && |s| > n
    ensures AllDigits(Digits(s, n)) && Value(Digits(s, n)) == Value(s) % Pow10(n)
  {
    var cut, kept := s[..|s| - n], s[|s| - n..];
    assert s == cut + kept && |kept| == n;
    ValueOfConcat(cut, kept);
    ValueBelowPow10(kept);
    ModuloOfSum(Value(cut), Value(kept), Pow10(n));
    assert Digits(s, n) == Repeat('0', 0) + kept == kept;
  }

  lemma {:induction false} NothingShifted(n: nat)
    ensures Shifted(0, n) == 0
  {
    if n > 0 {
      NothingShifted(n - 1);
    }
  }

  lemma LeadingZeros(s: string, n: nat)
    requires AllDigits(s)
    ensures AllDigits(Repeat('0', n) + s) && Value(Repeat('0', n) + s) == Value(s)
  {
    ValueOfZeros(n);
    ValueOfShifted(Repeat('0', n), s);
    NothingShifted(|s|);
  }

  lemma DigitsOfShortText(s: string, n: nat)
    requires n > 0 && AllDigits(s) && |s| <= n
    ensures AllDigits(Digits(s, n)) && Value(Digits(s, n)) == Value(s) < Pow10(n)
  {
    LeadingZeros(s, n - |s|);
    assert Digits(s, n) == Repeat('0', n - |s|) + s;
    ValueBelowPow10(s);
    Pow10Grows(|s|, n);
  }

  /** A zero-filled numeric field of width n holds its number modulo 10^n. */
  lemma DigitsReadsBack(s: string, n: nat)
    requires n > 0 && AllDigits(s)
    ensures AllDigits(Digits(s, n))
    ensures Value(Digits(s, n)) == Value(s) % Pow10(n)
  {
    if |s| > n {
      DigitsOfLongText(s, n);
    } else {
      DigitsOfShortText(s, n);
      ModuloOfSum(0, Value(s), Pow10(n));
    }
  }

  lemma NumberReadsBack(v: nat, n: nat)
    requires n > 0
    ensures AllDigits(Digits(Decimal(v), n))
    ensures Value(Digits(Decimal(v), n)) == v % Pow10(n)
  {
    DecimalReadsBack(v);
    DigitsReadsBack(Decimal(v), n);
  }

  lemma {:induction false} Pow10Grows(m: nat, n: nat)
    requires m <= n
    ensures Pow10(m) <= Pow10(n)
  {
    if m < n {
      Pow10Grows(m, n - 1);
    }
  }

  lemma {:induction false} ModuloOfSum(q: nat, r: nat, m: nat)
    requires r < m
    ensures (q * m + r) % m == r
  {
    if q > 0 {
      ModuloOfSum(q - 1, r, m);
      assert q * m + r == (q - 1) * m + r + m;
      ModuloOfShift((q - 1) * m + r, m);
    }
  }

  lemma ModuloOfShift(n: nat, m: nat)
    requires m > 0
    ensures (n + m) % m == n % m
  {
    var q, p := n / m, (n + m) / m;
    var d := p - q - 1;
    assert d * m == n % m - (n + m) % m;
    MultiplesAreApart(d, m);
  }

  lemma MultiplesAreApart(d: int, m: int)
    requires m > 0
    ensures d >= 1 ==> d * m >= m
    ensures d <= -1 ==> d * m <= -m
  {
  }

  // ---------- Trimming ----------

  /** White space and line terminators removed by `String.prototype.trim`. */
  predicate IsSpace(c: char) {
    var u := c as int;
    || 0x09 <= u <= 0x0D || u == 0x20 || u == 0xA0 || u == 0x1680 || 0x2000 <= u <= 0x200A
    || u == 0x2028 || u == 0x2029 || u == 0x202F || u == 0x205F || u == 0x3000 || u == 0xFEFF
  }

  function Trim(s: string): (t: string)
    ensures |t| <= |s|
    ensures t != "" ==> !IsSpace(t[0]) && !IsSpace(t[|t| - 1])
    decreases |s|
  {
    if s == "" then ""
    else if IsSpace(s[0]) then Trim(s[1..])
    else if IsSpace(s[|s| - 1]) then Trim(s[..|s| - 1])
    else s
  }

  /** White space and line terminators, as ECMAScript lists them: sections 12.2 and 12.3 of ECMA-262 (2023). */
  const SPACES := "\t\U{000B}\U{000C} \U{00A0}\U{FEFF}\n\r\U{2028}\U{2029}"
                  + "\U{1680}\U{2000}\U{2001}\U{2002}\U{2003}\U{2004}\U{2005}\U{2006}\U{2007}\U{2008}\U{2009}"
                  + "\U{200A}\U{202F}\U{205F}\U{3000}"

  lemma SpacesAre(c: char)
    ensures IsSpace(c) <==> c in SPACES
  {
    if IsSpace(c) {
      var code := c as int;
      assert code == 0x09 || code == 0x0A || code == 0x0B || code == 0x0C || code == 0x0D || code >= 0x20;
    }
  }

  ghost predicate AllSpace(s: string) {
    forall i | 0 <= i < |s| :: IsSpace(s[i])
  }

  ghost predicate TrimsTo(s: string, i: nat, j: nat) {
    i <= j <= |s| && Trim(s) == s[i..j] && AllSpace(s[..i]) && AllSpace(s[j..])
  }

  lemma FirstIsTrimmed(s: string, i: nat, j: nat)
    requires s != "" && IsSpace(s[0]) && TrimsTo(s[1..], i, j)
    ensures TrimsTo(s, i + 1, j + 1)
  {
    var rest := s[1..];
    assert rest[i..j] == s[i + 1..j + 1] && rest[j..] == s[j + 1..];
    assert s[..i + 1] == [s[0]] + rest[..i];
  }

  lemma LastIsTrimmed(s: string, i: nat, j: nat)
    requires s != "" && !IsSpace(s[0]) && IsSpace(s[|s| - 1]) && TrimsTo(s[..|s| - 1], i, j)
    ensures TrimsTo(s, i, j)
  {
    var front := s[..|s| - 1];
    assert front[i..j] == s[i..j] && front[..i] == s[..i];
    assert s[j..] == front[j..] + [s[|s| - 1]];
  }

  /** Trimming takes away nothing but white space, at the two ends. */
  lemma {:induction false} TrimTakesSpace(s: string) returns (i: nat, j: nat)
    ensures TrimsTo(s, i, j)
    decreases |s|
  {
    i, j := 0, |s|;
    if s != "" && IsSpace(s[0]) {
      i, j := TrimTakesSpace(s[1..]);
      FirstIsTrimmed(s, i, j);
      i, j := i + 1, j + 1;
    } else if s != "" && IsSpace(s[|s| - 1]) {
      i, j := TrimTakesSpace(s[..|s| - 1]);
      LastIsTrimmed(s, i, j);
    }
  }

  // ---------- Composed keys ----------

  /** UUIDs and enum names contain no colon. */
  predicate ColonFree(s: string) {
    forall i | 0 <= i < |s| :: s[i] != ':'
  }

  /** `${a}:${b}` determines both parts when the first contains no colon. */
  lemma SplitAtColon(a: string, b: string, a': string, b': string)
    requires ColonFree(a) && ColonFree(a')
    requires a + ":" + b == a' + ":" + b'
    ensures a == a' && b == b'
  {
    var s, s' := a + ":" + b, a' + ":" + b';
    assert s[|a|] == ':' && s'[|a'|] == ':';
    assert s'[..|a'|] == a' && s[..|a|] == a;
    assert s[|a| + 1..] == b && s'[|a'| + 1..] == b';
  }

  // ---------- Order of ids ----------

  predicate Less(a: string, b: string) {
    b != "" && (a == "" || a[0] < b[0] || (a[0] == b[0] && Less(a[1..], b[1..])))
  }

  /** The first k characters agree, and the first string ends there or has the smaller character. */
  ghost predicate SmallerFrom(a: string, b: string, k: nat) {
    k <= |a| && k < |b| && a[..k] == b[..k] && (k == |a| || a[k] < b[k])
  }

  /** The order is that of the first difference. */
  lemma {:induction false} LessIsFirstDifference(a: string, b: string)
    ensures Less(a, b) <==> exists k: nat :: SmallerFrom(a, b, k)
  {
    if b != "" && a == "" {
      assert SmallerFrom(a, b, 0);
    } else if b != "" && a[0] == b[0] {
      LessIsFirstDifference(a[1..], b[1..]);
      if k: nat :| SmallerFrom(a[1..], b[1..], k) {
        assert a[..k + 1] == [a[0]] + a[1..][..k] && b[..k + 1] == [b[0]] + b[1..][..k];
        assert SmallerFrom(a, b, k + 1);
      }
      if k: nat :| SmallerFrom(a, b, k) {
        assert a[1..][..k - 1] == a[..k][1..] && b[1..][..k - 1] == b[..k][1..];
        assert SmallerFrom(a[1..], b[1..], k - 1);
      }
    } else if b != "" {
      if a[0] < b[0] {
        assert SmallerFrom(a, b, 0);
      }
      if k: nat :| SmallerFrom(a, b, k) {
        assert k > 0 ==> a[..k][0] == b[..k][0];
      }
    }
  }

  lemma {:induction false} LessIsTotal(a: string, b: string)
    ensures Less(a, b) || a == b || Less(b, a)
    ensures !(Less(a, b) && Less(b, a)) && !Less(a, a)
  {
    if a != "" && b != "" && a[0] == b[0] {
      LessIsTotal(a[1..], b[1..]);
      LessIsTotal(a[1..], a[1..]);
      if a[1..] == b[1..] {
        assert a == [a[0]] + a[1..] == b;
      }
    } else if a != "" {
      LessIsTotal(a[1..], a[1..]);
    }
  }

  lemma {:induction false} LessIsTransitive(a: string, b: string, c: string)
    requires Less(a, b) && Less(b, c)
    ensures Less(a, c)
  {
    if a != "" && a[0] == b[0] && b[0] == c[0] {
      LessIsTransitive(a[1..], b[1..], c[1..]);
    }
  }

  ghost predicate IsLeast(s: set<string>, m: string) {
    m in s && forall x | x in s && x != m :: Less(m, x)
  }

  lemma {:induction false} LeastExists(s: set<string>)
    requires s != {}
    ensures exists m :: IsLeast(s, m)
    decreases |s|
  {
    var x :| x in s;
    var rest := s - {x};
    if rest == {} {
      assert s == {x};
      assert IsLeast(s, x);
    } else {
      LeastExists(rest);
      var m :| IsLeast(rest, m);
      LessIsTotal(x, m);
      if Less(x, m) {
        forall y | y in s && y != x ensures Less(x, y) {
          if y != m {
            LessIsTransitive(x, m, y);
          }
        }
        assert IsLeast(s, x);
      } else {
        assert IsLeast(s, m);
      }
    }
  }

  /** The first id under `orderBy: { id: 'asc' }`. */
  ghost function Least(s: set<string>): (m: string)
    requires s != {}
    ensures IsLeast(s, m)
  {
    LeastExists(s);
    var m :| IsLeast(s, m);
    m
  }

  lemma LeastIsUnique(s: set<string>, m: string, n: string)
    requires IsLeast(s, m) && IsLeast(s, n)
    ensures m == n
  {
    LessIsTotal(m, n);
  }

  /** The rows selected by `orderBy: { id: 'asc' }`, by id. */
  ghost function Sorted(s: set<string>): (r: seq<string>)
    ensures |r| == |s|
    ensures forall x :: x in r <==> x in s
    ensures forall i, j | 0 <= i < j < |r| :: Less(r[i], r[j])
    decreases |s|
  {
    if s == {} then []
    else
      var m := Least(s);
      [m] + Sorted(s - {m})
  }

  lemma FirstIsLeast(s: set<string>, r: seq<string>)
    requires r != [] && forall x :: x in r <==> x in s
    requires forall i, j | 0 <= i < j < |r| :: Less(r[i], r[j])
    ensures s != {} && r[0] in s && r[0] == Least(s)
    ensures forall i | 1 <= i < |r| :: r[i] != r[0]
  {
    assert r[0] in s;
    forall x | x in s && x != r[0] ensures Less(r[0], x) {
      var i :| 0 <= i < |r| && r[i] == x;
    }
    LeastIsUnique(s, r[0], Least(s));
    forall i | 1 <= i < |r| ensures r[i] != r[0] {
      LessIsTotal(r[0], r[i]);
    }
  }

  lemma RestIsListed(s: set<string>, r: seq<string>)
    requires r != [] && forall x :: x in r <==> x in s
    requires forall i | 1 <= i < |r| :: r[i] != r[0]
    ensures forall x :: x in r[1..] <==> x in s - {r[0]}
  {
    assert r == [r[0]] + r[1..];
  }

  lemma SortedFromLeast(s: set<string>, r: seq<string>)
    requires s != {} && r != [] && r[0] == Least(s) && r[1..] == Sorted(s - {r[0]})
    ensures r == Sorted(s)
  {
    assert r == [r[0]] + r[1..];
  }

  predicate Ascends(r: seq<string>) {
    forall i, j | 0 <= i < j < |r| :: Less(r[i], r[j])
  }

  lemma RestAscends(r: seq<string>)
    requires r != [] && Ascends(r)
    ensures Ascends(r[1..])
  {
  }

  /** Ascending order is unique: any ascending listing of the ids is the one above. */
  lemma {:induction false} SortedIsUnique(s: set<string>, r: seq<string>)
    requires forall x :: x in r <==> x in s
    requires Ascends(r)
    ensures r == Sorted(s)
    decreases |r|
  {
    if r == [] {
      assert s == {};
    } else {
      FirstIsLeast(s, r);
      RestIsListed(s, r);
      RestAscends(r);
      SortedIsUnique(s - {r[0]}, r[1..]);
      SortedFromLeast(s, r);
    }
  }
}
