/** The strings the fee code builds: installment labels and stub order ids. */
module Text {

  function DigitChar(d: nat): (c: char)
    requires d < 10
  {
    ('0' as int + d) as char
  }

  /** The decimal numeral of `n`. An object id is modelled as a number, and this is its text. */
  function Numeral(n: nat): (s: string) {
    if n < 10 then [DigitChar(n)] else Numeral(n / 10) + [DigitChar(n % 10)]
  }

  /** How JavaScript prints the rupee amount `paisa / 100`
      (Number::toString, section 6.1.6.1.20 of ECMAScript 2021). */
  function ShowRupees(paisa: int): (s: string)
    decreases paisa < 0
  {
    if paisa < 0 then "-" + ShowRupees(-paisa) else
    var whole, cents := Numeral(paisa / 100), paisa % 100;
    if cents == 0 then whole
    else if cents % 10 == 0 then whole + "." + [DigitChar(cents / 10)]
    else whole + "." + [DigitChar(cents / 10), DigitChar(cents % 10)]
  }

  function InstallmentLabel(i: nat): (s: string) {
    "Installment " + Numeral(i + 1)
  }

  /** The stub gateway's order id for the receipt `<invoice id>_<amount paid>`. */
  function StubOrderId(invoiceId: nat, amountPaid: int): (s: string) {
    "order_stub_" + (Numeral(invoiceId) + "_" + ShowRupees(amountPaid))
  }

  lemma {:induction false} NumeralChars(n: nat)
    ensures |Numeral(n)| >= 1
    ensures '_' !in Numeral(n) && '.' !in Numeral(n)
  {
    if n >= 10 {
      NumeralChars(n / 10);
    }
  }

  // ---- Reading the text back ----

  predicate AllDigits(s: string) {
    forall k :: 0 <= k < |s| ==> '0' <= s[k] <= '9'
  }

  /** The number a string of digits denotes. */
  function Read(s: string): nat
    requires AllDigits(s)
  {
    if s == "" then 0 else 10 * Read(s[..|s| - 1]) + (s[|s| - 1] as int - '0' as int)
  }

  /** A numeral denotes its number, and has no leading zero. */
  lemma {:induction false} NumeralReads(n: nat)
    ensures AllDigits(Numeral(n)) && Read(Numeral(n)) == n
    ensures |Numeral(n)| >= 1 && (Numeral(n)[0] == '0' ==> n == 0)
  {
    if n >= 10 {
      NumeralReads(n / 10);
      assert Numeral(n)[..|Numeral(n)| - 1] == Numeral(n / 10);
    } else {
      assert Numeral(n)[..0] == "";
    }
  }

  lemma NumeralInjective(a: nat, b: nat)
    requires Numeral(a) == Numeral(b)
    ensures a == b
  {
    NumeralReads(a);
    NumeralReads(b);
  }

  /** The paisa denoted by a rupee text: a whole part, and a fraction of one or two digits. */
  predicate Denotes(s: string, whole: string, fraction: string, paisa: nat) {
    && AllDigits(whole) && whole != "" && AllDigits(fraction) && |fraction| <= 2
    && s == whole + (if fraction == "" then "" else "." + fraction)
    && paisa == 100 * Read(whole) + if |fraction| == 1 then 10 * Read(fraction) else Read(fraction)
  }

  /** The fraction of a printed amount denotes its cents, without a trailing zero. */
  lemma CentsRead(cents: nat) returns (fraction: string)
    requires cents < 100
    ensures AllDigits(fraction) && |fraction| <= 2 && (fraction != "" ==> fraction[|fraction| - 1] != '0')
    ensures cents == if |fraction| == 1 then 10 * Read(fraction) else Read(fraction)
    ensures fraction == if cents == 0 then ""
                        else if cents % 10 == 0 then [DigitChar(cents / 10)]
                        else [DigitChar(cents / 10), DigitChar(cents % 10)]
  {
    if cents == 0 {
      fraction := "";
    } else {
      ReadDigits(cents / 10, cents % 10);
      fraction := if cents % 10 == 0 then [DigitChar(cents / 10)]
                  else [DigitChar(cents / 10), DigitChar(cents % 10)];
    }
  }

  /** The printed amount reads back as its paisa, with no trailing zero. */
  lemma ShowRupeesReads(p: nat) returns (whole: string, fraction: string)
    ensures Denotes(ShowRupees(p), whole, fraction, p)
    ensures fraction != "" ==> fraction[|fraction| - 1] != '0'
  {
    whole := Numeral(p / 100);
    NumeralReads(p / 100);
    fraction := CentsRead(p % 100);
    assert ShowRupees(p) == whole + (if fraction == "" then "" else "." + fraction);
    assert p == 100 * (p / 100) + p % 100;
  }

  lemma ReadDigits(a: nat, b: nat)
    requires a < 10 && b < 10
    ensures AllDigits([DigitChar(a)]) && Read([DigitChar(a)]) == a
    ensures AllDigits([DigitChar(a), DigitChar(b)]) && Read([DigitChar(a), DigitChar(b)]) == 10 * a + b
  {
    assert [DigitChar(a)][..0] == "";
    assert [DigitChar(a), DigitChar(b)][..1] == [DigitChar(a)];
  }

  /** A separator that occurs in neither tail splits a string in one way only. */
  lemma SplitAtLast(a: string, x: string, b: string, y: string, sep: char)
    requires a + [sep] + x == b + [sep] + y
    requires sep !in x && sep !in y
    ensures a == b && x == y
  {
    var s := a + [sep] + x;
    var t := b + [sep] + y;
    assert s[|a|] == sep && forall k :: |a| < k < |s| ==> s[k] == x[k - |a| - 1];
    assert t[|b|] == sep && forall k :: |b| < k < |t| ==> t[k] == y[k - |b| - 1];
    assert |a| == |b|;
    assert a == s[..|a|] && b == t[..|b|];
    assert x == s[|a| + 1..] && y == t[|b| + 1..];
  }

  lemma ShowRupeesChars(p: nat)
    ensures '_' !in ShowRupees(p)
    ensures '.' in ShowRupees(p) <==> p % 100 != 0
  {
    NumeralChars(p / 100);
    var s := ShowRupees(p);
    if p % 100 != 0 {
      assert s[|Numeral(p / 100)|] == '.';
    }
  }

  lemma ShowRupeesInjective(p: nat, q: nat)
    requires ShowRupees(p) == ShowRupees(q)
    ensures p == q
  {
    ShowRupeesChars(p);
    ShowRupeesChars(q);
    var wp, wq := Numeral(p / 100), Numeral(q / 100);
    if p % 100 != 0 {
      var x := ShowRupees(p)[|wp| + 1..];
      var y := ShowRupees(q)[|wq| + 1..];
      assert ShowRupees(p) == wp + ['.'] + x;
      assert ShowRupees(q) == wq + ['.'] + y;
      SplitAtLast(wp, x, wq, y, '.');
      assert x[0] == y[0];
    }
    NumeralInjective(p / 100, q / 100);
  }

  lemma LabelInjective(i: nat, j: nat)
    requires InstallmentLabel(i) == InstallmentLabel(j)
    ensures i == j
  {
    assert InstallmentLabel(i)[12..] == Numeral(i + 1);
    assert InstallmentLabel(j)[12..] == Numeral(j + 1);
    NumeralInjective(i + 1, j + 1);
  }

  /** The stub order id determines the invoice and what was paid when it was made. */
  lemma StubOrderIdInjective(i: nat, p: nat, j: nat, q: nat)
    requires StubOrderId(i, p) == StubOrderId(j, q)
    ensures i == j && p == q
  {
    ShowRupeesChars(p);
    ShowRupeesChars(q);
    assert StubOrderId(i, p)[11..] == Numeral(i) + ['_'] + ShowRupees(p);
    assert StubOrderId(j, q)[11..] == Numeral(j) + ['_'] + ShowRupees(q);
    SplitAtLast(Numeral(i), ShowRupees(p), Numeral(j), ShowRupees(q), '_');
    NumeralInjective(i, j);
    ShowRupeesInjective(p, q);
  }
}
