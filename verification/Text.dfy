/** Text helpers: splitting, joining, decimal numerals, and the name separator argument. */
module Text {
  import opened Options

  /** Go's `strings.Split` for a one-character separator: always at least one part. */
  function Split(s: string, sep: char): (parts: seq<string>)
    ensures |parts| >= 1
  {
    if s == [] then [[]]
    else
      var rest := Split(s[1..], sep);
      if s[0] == sep then [[]] + rest else [[s[0]] + rest[0]] + rest[1..]
  }

  function Join(parts: seq<string>, sep: char): string {
    if |parts| == 0 then []
    else if |parts| == 1 then parts[0]
    else parts[0] + [sep] + Join(parts[1..], sep)
  }

  lemma {:induction false} SplitFree(s: string, sep: char)
    requires sep !in s
    ensures Split(s, sep) == [s]
  {
    if s != [] {
      SplitFree(s[1..], sep);
      assert s[0] in s && [s[0]] + s[1..] == s;
    }
  }

  lemma {:induction false} SplitAtSeparator(a: string, sep: char, b: string)
    requires sep !in a
    ensures Split(a + [sep] + b, sep) == [a] + Split(b, sep)
  {
    var s := a + [sep] + b;
    if a == [] {
      assert s[1..] == b;
    } else {
      assert s[1..] == a[1..] + [sep] + b;
      SplitAtSeparator(a[1..], sep, b);
      assert a[0] in a && [a[0]] + a[1..] == a && s[0] == a[0];
    }
  }

  /** Splitting undoes joining when no part holds the separator. */
  lemma {:induction false} SplitJoin(parts: seq<string>, sep: char)
    requires parts != []
    requires forall p | p in parts :: sep !in p
    ensures Split(Join(parts, sep), sep) == parts
  {
    if |parts| == 1 {
      SplitFree(parts[0], sep);
    } else {
      SplitJoin(parts[1..], sep);
      SplitAtSeparator(parts[0], sep, Join(parts[1..], sep));
    }
  }

  /** Joining undoes splitting, and no part holds the separator. */
  lemma {:induction false} JoinSplit(s: string, sep: char)
    ensures Join(Split(s, sep), sep) == s
    ensures forall p | p in Split(s, sep) :: sep !in p
  {
    if s != [] {
      var rest := Split(s[1..], sep);
      JoinSplit(s[1..], sep);
      assert s == [s[0]] + s[1..];
      if s[0] == sep {
        assert ([[]] + rest)[1..] == rest;
        assert Join([[]] + rest, sep) == [] + [sep] + Join(rest, sep);
      } else {
        JoinFirst(s[0], rest, sep);
      }
    }
  }

  lemma JoinFirst(c: char, rest: seq<string>, sep: char)
    requires rest != []
    ensures Join([[c] + rest[0]] + rest[1..], sep) == [c] + Join(rest, sep)
  {
    var parts := [[c] + rest[0]] + rest[1..];
    if |rest| == 1 {
      assert parts == [[c] + rest[0]];
    } else {
      assert parts[1..] == rest[1..];
      assert [c] + rest[0] + [sep] + Join(rest[1..], sep) == [c] + (rest[0] + [sep] + Join(rest[1..], sep));
    }
  }

  /** The last path component of `s`. */
  function LastPart(s: string, sep: char): string {
    var parts := Split(s, sep);
    parts[|parts| - 1]
  }

  // ---------------------------------------------------------------- numerals

  predicate IsDigit(c: char) { '0' <= c <= '9' }

  function DigitChar(d: int): (c: char)
    requires 0 <= d < 10
    ensures IsDigit(c) && c as int - '0' as int == d
  {
    ('0' as int + d) as char
  }

  function Digits(n: nat): (s: string)
    ensures s != [] && forall c | c in s :: IsDigit(c)
  {
    if n < 10 then [DigitChar(n)] else Digits(n / 10) + [DigitChar(n % 10)]
  }

  function DigitsValue(s: string): nat
    requires forall c | c in s :: IsDigit(c)
  {
    if s == [] then 0
    else
      assert IsDigit(s[|s| - 1]);
      10 * DigitsValue(s[..|s| - 1]) + (s[|s| - 1] as int - '0' as int)
  }

  lemma {:induction false} DigitsRoundTrip(n: nat)
    ensures DigitsValue(Digits(n)) == n
  {
    if n >= 10 {
      DigitsRoundTrip(n / 10);
      assert Digits(n)[..|Digits(n)| - 1] == Digits(n / 10);
    }
  }

  /** The canonical decimal form printed by `%d`. */
  function Decimal(n: int): string {
    if n < 0 then ['-'] + Digits(-n) else Digits(n)
  }

  const MIN_INT := -0x8000_0000_0000_0000
  const MAX_INT := 0x7fff_ffff_ffff_ffff

  /** Go's `strconv.Atoi` on a 64-bit host: one optional sign, at least one digit, value in range. */
  function Atoi(s: string): Option<int> {
    var signed := s != [] && (s[0] == '-' || s[0] == '+');
    var body := if signed then s[1..] else s;
    if body == [] || exists c | c in body :: !IsDigit(c) then None
    else
      var n: int := if signed && s[0] == '-' then 0 - DigitsValue(body) else DigitsValue(body);
      if MIN_INT <= n <= MAX_INT then Some(n) else None
  }

  lemma AtoiDecimal(n: int)
    requires MIN_INT <= n <= MAX_INT
    ensures Atoi(Decimal(n)) == Some(n)
  {
    var s := Decimal(n);
    var body := if n < 0 then Digits(-n) else Digits(n);
    DigitsRoundTrip(if n < 0 then -n else n);
    assert s[0] == '-' <==> n < 0 by {
      assert body[0] in body;
    }
    if n < 0 {
      assert s[1..] == body;
    } else {
      assert s[0] in s && s[0] != '+';
    }
  }

  function Zeros(k: nat): string { seq(k, _ => '0') }

  /** `s` is a numeral for `n`: an optional sign, then the digits of the amount, padded with zeros. */
  ghost predicate Numeral(s: string, n: int) {
    exists k: nat, m: nat ::
      (s == Zeros(k) + Digits(m) && n == m) || (s == "+" + (Zeros(k) + Digits(m)) && n == m) ||
      (s == "-" + (Zeros(k) + Digits(m)) && n == 0 - m)
  }

  /** Any digits are padded digits of their value. */
  lemma {:induction false} DigitsPadded(s: string) returns (k: nat)
    requires s != [] && forall c | c in s :: IsDigit(c)
    ensures s == Zeros(k) + Digits(DigitsValue(s))
    decreases |s|
  {
    var n := |s| - 1;
    var d := s[n] as int - '0' as int;
    assert IsDigit(s[n]) && DigitChar(d) == s[n];
    if n == 0 {
      k := 0;
      assert s[..0] == [] && s == [DigitChar(d)];
    } else {
      var j := DigitsPadded(s[..n]);
      var v := DigitsValue(s[..n]);
      assert s == s[..n] + [s[n]];
      if v == 0 {
        k := j + 1;
        assert Digits(0) == "0" && DigitsValue(s) == d;
        assert Zeros(j) + "0" == Zeros(j + 1);
      } else {
        k := j;
        assert DigitsValue(s) == 10 * v + d && DigitsValue(s) / 10 == v && DigitsValue(s) % 10 == d;
      }
    }
  }

  lemma {:induction false} PaddedValue(k: nat, m: nat)
    ensures var s := Zeros(k) + Digits(m); (forall c | c in s :: IsDigit(c)) && DigitsValue(s) == m
    decreases k + m
  {
    var s := Zeros(k) + Digits(m);
    var n := |s| - 1;
    assert forall c | c in s :: IsDigit(c);
    if m >= 10 {
      PaddedValue(k, m / 10);
      assert s[..n] == Zeros(k) + Digits(m / 10) && s[n] == DigitChar(m % 10);
    } else if k == 0 {
      assert s == [DigitChar(m)] && s[..n] == [];
    } else {
      PaddedValue(k - 1, 0);
      assert s[..n] == Zeros(k - 1) + Digits(0) && s[n] == DigitChar(m);
    }
  }

  lemma AtoiSound(s: string, n: int)
    requires Atoi(s) == Some(n)
    ensures Numeral(s, n) && MIN_INT <= n <= MAX_INT
  {
    var signed := s[0] == '-' || s[0] == '+';
    var body := if signed then s[1..] else s;
    var k := DigitsPadded(body);
    var m := DigitsValue(body);
    hide DigitsValue, Digits, Zeros;
    if signed {
      assert s == [s[0]] + body;
    }
    assert s == Zeros(k) + Digits(m) || s == "+" + (Zeros(k) + Digits(m)) || s == "-" + (Zeros(k) + Digits(m));
  }

  lemma AtoiSigned(sign: string, body: string)
    requires sign in {"", "+", "-"} && body != [] && forall c | c in body :: IsDigit(c)
    ensures var n := if sign == "-" then 0 - DigitsValue(body) else DigitsValue(body);
      Atoi(sign + body) == if MIN_INT <= n <= MAX_INT then Some(n) else None
  {
    hide DigitsValue;
    var s := sign + body;
    assert body[0] in body;
    if sign == "" {
      assert s == body;
    } else {
      assert s[0] == sign[0] && s[1..] == body;
    }
  }

  /** The parser accepts the numerals of the host's range, and nothing else. */
  lemma AtoiExactly(s: string, n: int)
    ensures Atoi(s) == Some(n) <==> Numeral(s, n) && MIN_INT <= n <= MAX_INT
  {
    hide Atoi, Digits, DigitsValue, Zeros;
    if Atoi(s) == Some(n) {
      AtoiSound(s, n);
    }
    if Numeral(s, n) && MIN_INT <= n <= MAX_INT {
      var k: nat, m: nat :| (s == Zeros(k) + Digits(m) && n == m) || (s == "+" + (Zeros(k) + Digits(m)) && n == m) ||
        (s == "-" + (Zeros(k) + Digits(m)) && n == 0 - m);
      var body := Zeros(k) + Digits(m);
      PaddedValue(k, m);
      assert body != [] by {
        assert Digits(m) != [];
      }
      AtoiSigned("", body);
      AtoiSigned("+", body);
      AtoiSigned("-", body);
      assert "" + body == body;
    }
  }

  // ------------------------------------------------------------ separators

  /** Cutting at the first separator is unique when what stands before it is separator-free. */
  lemma FirstSeparator(a: string, b: string, c: string, d: string, sep: char)
    requires sep !in a && sep !in c
    requires a + [sep] + b == c + [sep] + d
    ensures a == c && b == d
  {
    var s := a + [sep] + b;
    assert s[|a|] == sep && s[|c|] == sep;
    forall i | 0 <= i < |a| ensures s[i] != sep {
      assert s[i] == a[i] && a[i] in a;
    }
    forall i | 0 <= i < |c| ensures s[i] != sep {
      assert s[i] == c[i] && c[i] in c;
    }
    assert |a| == |c|;
    assert a == s[..|a|] && c == s[..|c|];
    assert b == s[|a| + 1..] && d == s[|c| + 1..];
  }

  /** Cutting at the last separator is unique when what follows it is separator-free. */
  lemma LastSeparator(a: string, b: string, c: string, d: string, sep: char)
    requires sep !in b && sep !in d
    requires a + [sep] + b == c + [sep] + d
    ensures a == c && b == d
  {
    var s := a + [sep] + b;
    assert |s| == |a| + 1 + |b| == |c| + 1 + |d|;
    assert s[|a|] == sep && s[|c|] == sep;
    forall i | |a| < i < |s| ensures s[i] != sep {
      assert s[i] == b[i - |a| - 1] && b[i - |a| - 1] in b;
    }
    forall i | |c| < i < |s| ensures s[i] != sep {
      assert s[i] == d[i - |c| - 1] && d[i - |c| - 1] in d;
    }
    assert |a| == |c|;
    assert a == s[..|a|] && c == s[..|c|];
    assert b == s[|a| + 1..] && d == s[|c| + 1..];
  }

  lemma SuffixCancel(a: string, b: string, suffix: string)
    requires a + suffix == b + suffix
    ensures a == b
  {
    var s := a + suffix;
    assert |a| == |b|;
    assert a == s[..|a|] && b == s[..|b|];
  }

  lemma PrefixCancel(prefix: string, a: string, b: string)
    requires prefix + a == prefix + b
    ensures a == b
  {
    assert a == (prefix + a)[|prefix|..];
    assert b == (prefix + b)[|prefix|..];
  }
}
