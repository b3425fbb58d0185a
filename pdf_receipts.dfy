/** billing/pdf_receipts.py: the strings a payment receipt shows. `_money`
    renders an amount with two decimals and comma grouping; the header's
    contact line, the patient's name, the method label and the reference
    are derived from the hospital, the invoice and the payment. The page
    drawing itself is not modelled. */
module PdfReceipts {
  import opened Common
  import opened Text
  import opened Schema
  import opened BillingModels

  // ---------------------------------------------------------------- _money

  /** What `_money` is given: a value `Decimal` accepts, here an amount in
      cents, or anything else, rendered by `str`. */
  datatype MoneyArg = Cents(cents: int) | NotNumeric(shown: string)

  /** The digits of the integer part with a comma before every group of
      three counted from the right (`format(..., ",")`). */
  function Grouped(digits: string): string
    decreases |digits|
  {
    if |digits| <= 3 then digits
    else Grouped(digits[..|digits| - 3]) + "," + digits[|digits| - 3..]
  }

  /** The string with its commas removed. */
  function Ungroup(s: string): (r: string)
    ensures |r| <= |s|
  {
    if s == [] then []
    else Ungroup(s[..|s| - 1]) + (if s[|s| - 1] == ',' then [] else [s[|s| - 1]])
  }

  function Magnitude(c: int): nat {
    if c < 0 then -c else c
  }

  function Sign(c: int): string {
    if c < 0 then "-" else ""
  }

  /** The integer part of the amount, grouped. */
  function WholePart(c: int): (r: string)
    ensures r != [] && IsDigit(r[0])
  {
    var d := NatToString(Magnitude(c) / 100);
    GroupedFirst(d);
    Grouped(d)
  }

  /** The cents, as exactly two digits. */
  function Fraction(c: int): (r: string)
    ensures |r| == 2 && AllDigits(r) && DigitsValue(r) == Magnitude(c) % 100
  {
    assert Pow10(2) == 100 by { assert Pow10(1) == 10; }
    PadNatLength(Magnitude(c) % 100, 2);
    PadNatValue(Magnitude(c) % 100, 2);
    PadNat(Magnitude(c) % 100, 2)
  }

  /** `f"{Decimal(v):,.2f}"`, or `f"{v}"` when `Decimal(v)` raises. A
      negative amount gets a leading minus sign. */
  function Money(v: MoneyArg): (r: string)
    ensures v.NotNumeric? ==> r == v.shown
    ensures v.Cents? ==> |r| >= 4 && r[|r| - 3] == '.' && (r[0] == '-' <==> v.cents < 0)
  {
    match v
    case NotNumeric(t) => t
    case Cents(c) =>
      assert Unsigned(c)[|Unsigned(c)| - 3] == '.' && Unsigned(c)[0] == WholePart(c)[0];
      Sign(c) + Unsigned(c)
  }

  /** The amount without its sign: the grouped integer part, a point and
      the cents. */
  function Unsigned(c: int): string {
    WholePart(c) + "." + Fraction(c)
  }

  /** Reads an unsigned rendered amount back: digits with commas, a
      point and exactly two digits. */
  function ParseUnsigned(body: string): Option<nat> {
    if |body| < 4 || body[|body| - 3] != '.' then None
    else
      var whole := Ungroup(body[..|body| - 3]);
      var frac := body[|body| - 2..];
      if whole == [] || !AllDigits(whole) || !AllDigits(frac) then None
      else Some(DigitsValue(whole) * 100 + DigitsValue(frac))
  }

  /** Reads a rendered amount back, with its optional minus sign. */
  function ParseMoney(s: string): Option<int> {
    if |s| > 0 && s[0] == '-' then
      match ParseUnsigned(s[1..])
      case None => None
      case Some(m) => Some(-(m as int))
    else
      match ParseUnsigned(s)
      case None => None
      case Some(m) => Some(m)
  }

  /** A comma stands exactly at the positions a multiple of four from the
      end, never first: groups of three digits after the first group. */
  predicate CommaEveryThree(r: string) {
    forall i :: 0 <= i < |r| ==> (r[i] == ',' <==> 0 < i && (|r| - i) % 4 == 0)
  }

  lemma {:induction false} UngroupAppend(a: string, b: string)
    ensures Ungroup(a + b) == Ungroup(a) + Ungroup(b)
    decreases |b|
  {
    if b == [] {
      assert a + b == a;
    } else {
      assert (a + b)[..|a + b| - 1] == a + b[..|b| - 1];
      UngroupAppend(a, b[..|b| - 1]);
    }
  }

  lemma {:induction false} UngroupDigits(s: string)
    requires AllDigits(s)
    ensures Ungroup(s) == s
    decreases |s|
  {
    if s != [] {
      UngroupDigits(s[..|s| - 1]);
    }
  }

  /** Removing the commas gives back the digits. */
  lemma {:induction false} GroupedUngroup(d: string)
    requires AllDigits(d)
    ensures Ungroup(Grouped(d)) == d
    decreases |d|
  {
    if |d| <= 3 {
      UngroupDigits(d);
    } else {
      var p, t := d[..|d| - 3], d[|d| - 3..];
      GroupedUngroup(p);
      UngroupGroup(Grouped(p), t);
      assert p + t == d;
    }
  }

  /** Removing the commas from a group appended after a comma. */
  lemma UngroupGroup(g: string, t: string)
    requires AllDigits(t)
    ensures Ungroup(g + "," + t) == Ungroup(g) + t
  {
    UngroupAppend(g + ",", t);
    UngroupComma(g);
    UngroupDigits(t);
  }

  /** A trailing comma is removed. */
  lemma UngroupComma(g: string)
    ensures Ungroup(g + ",") == Ungroup(g)
  {
    var s := g + ",";
    assert s[..|s| - 1] == g;
    assert s[|s| - 1] == ',';
  }

  /** Grouping keeps the first digit first. */
  lemma {:induction false} GroupedFirst(d: string)
    requires d != []
    ensures Grouped(d) != [] && Grouped(d)[0] == d[0]
    decreases |d|
  {
    if |d| > 3 {
      GroupedFirst(d[..|d| - 3]);
    }
  }

  /** The commas stand every three digits from the right. */
  lemma {:induction false} GroupedCommas(d: string)
    requires d != [] && AllDigits(d)
    ensures CommaEveryThree(Grouped(d))
    decreases |d|
  {
    if |d| > 3 {
      var p, t := d[..|d| - 3], d[|d| - 3..];
      GroupedCommas(p);
      GroupedFirst(p);
      CommaJoin(Grouped(p), t);
    }
  }

  /** A comma and three more digits after a well-grouped string keep it
      well grouped. */
  lemma CommaJoin(g: string, t: string)
    requires g != [] && g[0] != ',' && CommaEveryThree(g)
    requires |t| == 3 && AllDigits(t)
    ensures CommaEveryThree(g + "," + t)
  {
    var r := g + "," + t;
    forall i | 0 <= i < |r|
      ensures r[i] == ',' <==> 0 < i && (|r| - i) % 4 == 0
    {
      CommaJoinAt(g, t, i);
    }
  }

  lemma CommaJoinAt(g: string, t: string, i: nat)
    requires g != [] && g[0] != ',' && CommaEveryThree(g)
    requires |t| == 3 && AllDigits(t) && i < |g| + 1 + |t|
    ensures var r := g + "," + t; r[i] == ',' <==> 0 < i && (|r| - i) % 4 == 0
  {
    var r := g + "," + t;
    if i < |g| {
      assert r[i] == g[i];
      assert |r| - i == (|g| - i) + 4;
    } else if i > |g| {
      assert r[i] == t[i - |g| - 1];
      assert IsDigit(t[i - |g| - 1]);
    }
  }

  /** Where the parts of a rendered amount sit. */
  lemma MoneyParts(c: int)
    ensures var r := Money(Cents(c));
      && r[|Sign(c)|..|r| - 3] == WholePart(c) && r[|r| - 3] == '.' && r[|r| - 2..] == Fraction(c)
  {
    var sg, w, f := Sign(c), WholePart(c), Fraction(c);
    var r := Money(Cents(c));
    assert r == sg + w + "." + f;
    assert r[|sg|..|r| - 3] == w;
    assert r[|r| - 2..] == f;
  }

  /** `_money` always ends in a point and exactly two digits, groups the
      integer part by commas every three digits, and is signed exactly when
      the amount is negative. */
  lemma MoneyShape(c: int)
    ensures var r := Money(Cents(c));
      && |r| >= 4 && r[|r| - 3] == '.' && AllDigits(r[|r| - 2..])
      && (r[0] == '-' <==> c < 0)
      && CommaEveryThree(r[|Sign(c)|..|r| - 3]) && Ungroup(r[|Sign(c)|..|r| - 3]) == NatToString(Magnitude(c) / 100)
  {
    MoneyParts(c);
    GroupedCommas(NatToString(Magnitude(c) / 100));
    GroupedUngroup(NatToString(Magnitude(c) / 100));
    var r := Money(Cents(c));
    if c >= 0 {
      assert r[0] == WholePart(c)[0];
    }
  }

  /** Reading back a grouped integer part, a point and two digits. */
  lemma ParseUnsignedParts(whole: string, frac: string)
    requires Ungroup(whole) != [] && AllDigits(Ungroup(whole))
    requires |frac| == 2 && AllDigits(frac)
    ensures ParseUnsigned(whole + "." + frac) == Some(DigitsValue(Ungroup(whole)) * 100 + DigitsValue(frac))
  {
    var body := whole + "." + frac;
    assert body[..|body| - 3] == whole;
    assert body[|body| - 2..] == frac;
  }

  /** Reading back a negative amount. */
  lemma ParseNegative(body: string, m: nat)
    requires ParseUnsigned(body) == Some(m) && body[0] != '-'
    ensures ParseMoney("-" + body) == Some(-(m as int))
  {
    assert ("-" + body)[1..] == body;
  }

  /** Reading back an amount without a sign. */
  lemma ParseNonNegative(body: string, m: nat)
    requires ParseUnsigned(body) == Some(m) && body[0] != '-'
    ensures ParseMoney(body) == Some(m)
  {
  }

  /** The unsigned part reads back as the magnitude. */
  lemma UnsignedRoundTrip(c: int)
    ensures ParseUnsigned(Unsigned(c)) == Some(Magnitude(c)) && Unsigned(c)[0] != '-'
  {
    var m := Magnitude(c);
    var digits := NatToString(m / 100);
    GroupedUngroup(digits);
    NatToStringValue(m / 100);
    ParseUnsignedParts(WholePart(c), Fraction(c));
    assert Unsigned(c)[0] == WholePart(c)[0];
    assert m / 100 * 100 + m % 100 == m;
  }

  /** The rendered amount reads back as the amount. */
  lemma MoneyRoundTrip(c: int)
    ensures ParseMoney(Money(Cents(c))) == Some(c)
  {
    UnsignedRoundTrip(c);
    if c < 0 {
      ParseNegative(Unsigned(c), Magnitude(c));
    } else {
      ParseNonNegative(Unsigned(c), Magnitude(c));
      assert Money(Cents(c)) == Unsigned(c);
    }
  }

  /** Zero is shown as "0.00". */
  lemma MoneyZero()
    ensures Money(Cents(0)) == "0.00"
  {
    assert Magnitude(0) == 0 && Sign(0) == "";
    assert NatToString(0) == "0";
    assert WholePart(0) == "0" by { assert Grouped("0") == "0"; }
    assert Fraction(0) == "00" by {
      assert Zeros(1) == "0" by { assert Zeros(0) == ""; }
      assert ZeroPad("0", 2) == "00";
    }
    assert Unsigned(0) == "0" + "." + "00";
    assert Money(Cents(0)) == "" + Unsigned(0);
  }

  // ---------------------------------------------------------------- fields

  /** The hospital profile the header reads. */
  datatype Hospital = Hospital(name: string, address: string, phone: string, email: string)

  const Bullet := " • "
  /** The characters `.strip(" •")` removes. */
  const SpaceOrBullet: set<char> := {' ', '•'}

  /** The header's contact line: `f"{phone} • {email}".strip(" •")`. */
  function ContactLine(h: Hospital): (r: string)
    ensures Trimmed(r, SpaceOrBullet)
  {
    StripSet(h.phone + Bullet + h.email, SpaceOrBullet)
  }

  /** With a phone and an email that do not themselves start or end with
      a space or bullet, the line is both joined by the bullet; with only
      one of them it is that one alone, and with neither it is empty. */
  lemma ContactLineSpec(h: Hospital)
    requires Trimmed(h.phone, SpaceOrBullet) && Trimmed(h.email, SpaceOrBullet)
    ensures ContactLine(h) ==
      if h.phone != "" && h.email != "" then h.phone + Bullet + h.email
      else if h.phone != "" then h.phone
      else h.email
  {
    assert AllIn(Bullet, SpaceOrBullet);
    if h.phone != "" && h.email != "" {
      var m := h.phone + Bullet + h.email;
      assert m[0] == h.phone[0] && m[|m| - 1] == h.email[|h.email| - 1];
      assert "" + m + "" == m;
      StripSetFrame("", m, "", SpaceOrBullet);
    } else if h.phone != "" {
      assert "" + h.phone + Bullet == h.phone + Bullet + h.email;
      StripSetFrame("", h.phone, Bullet, SpaceOrBullet);
    } else {
      assert Bullet + h.email + "" == h.phone + Bullet + h.email;
      StripSetFrame(Bullet, h.email, "", SpaceOrBullet);
    }
  }

  /** The receipt's patient name: "last first" stripped of outer
      whitespace, and empty when there is no patient. */
  function PatientName(p: Option<Patient>): (r: string)
    ensures Trimmed(r, Whitespace)
    ensures p.None? ==> r == ""
  {
    match p
    case None => ""
    case Some(q) => Strip(DisplayName(q))
  }

  /** For names without outer whitespace the stripped name is the non-empty
      ones of last and first, joined by one space. */
  lemma PatientNameSpec(p: Option<Patient>)
    ensures p.None? ==> PatientName(p) == ""
    ensures p.Some? && Trimmed(p.value.lastName, Whitespace) && Trimmed(p.value.firstName, Whitespace) ==>
      PatientName(p) == Join(" ", NonEmpty([p.value.lastName, p.value.firstName]))
  {
    if p.Some? && Trimmed(p.value.lastName, Whitespace) && Trimmed(p.value.firstName, Whitespace) {
      var last, first := p.value.lastName, p.value.firstName;
      JoinNonEmptyPair(" ", last, first);
      assert AllIn(" ", Whitespace);
      if last != "" && first != "" {
        var m := last + " " + first;
        assert m[0] == last[0] && m[|m| - 1] == first[|first| - 1];
        assert "" + m + "" == m;
        StripSetFrame("", m, "", Whitespace);
      } else if last != "" {
        assert "" + last + " " == last + " " + first;
        StripSetFrame("", last, " ", Whitespace);
      } else {
        assert " " + first + "" == last + " " + first;
        StripSetFrame(" ", first, "", Whitespace);
      }
    }
  }

  /** `payment.get_method_display()`: the label of a known method; Django
      shows a stored value outside the choices as it is. */
  function MethodLabel(m: string): (r: string)
    ensures m == MethodCash ==> r == "Cash"
    ensures m == MethodPos ==> r == "POS"
    ensures m == MethodTransfer ==> r == "Transfer"
    ensures m == MethodHmo ==> r == "HMO Settlement"
    ensures m !in {MethodCash, MethodPos, MethodTransfer, MethodHmo} ==> r == m
  {
    if m == MethodCash then "Cash"
    else if m == MethodPos then "POS"
    else if m == MethodTransfer then "Transfer"
    else if m == MethodHmo then "HMO Settlement"
    else m
  }

  /** The reference shown: a blank one becomes a dash. */
  function ShownReference(reference: string): (r: string)
    ensures r != ""
    ensures reference != "" ==> r == reference
  {
    if reference == "" then "—" else reference
  }

  const Naira := "₦"

  /** The values the receipt's rows show, in order. */
  datatype Receipt = Receipt(
    invoiceNumber: string,
    patientName: string,
    hospitalNumber: string,
    amountPaid: string,
    methodLabel: string,
    reference: string,
    patientShare: string,
    totalPaid: string,
    balance: string)

  /** The receipt for `payment` on `inv`, whose patient is `p`. */
  function ReceiptFor(inv: Invoice, p: Option<Patient>, payment: Payment): (r: Receipt)
    ensures r.invoiceNumber == inv.number
    ensures r.reference != "" && (payment.reference != "" ==> r.reference == payment.reference)
    ensures p.None? ==> r.patientName == "" && r.hospitalNumber == ""
  {
    Receipt(
      inv.number,
      PatientName(p),
      if p.Some? then p.value.hospitalNumber else "",
      Naira + Money(Cents(payment.amount)),
      MethodLabel(payment.payMethod),
      ShownReference(payment.reference),
      Naira + Money(Cents(inv.patientAmount)),
      Naira + Money(Cents(inv.amountPaid)),
      Naira + Money(Cents(inv.balance)))
  }

  /** The amounts on the receipt are the payment's and the invoice's, to the
      cent: each reads back, after the currency sign, as the stored value. */
  lemma ReceiptAmounts(inv: Invoice, p: Option<Patient>, payment: Payment)
    ensures var r := ReceiptFor(inv, p, payment);
      && r.amountPaid[..1] == Naira && ParseMoney(r.amountPaid[1..]) == Some(payment.amount)
      && r.patientShare[..1] == Naira && ParseMoney(r.patientShare[1..]) == Some(inv.patientAmount)
      && r.totalPaid[..1] == Naira && ParseMoney(r.totalPaid[1..]) == Some(inv.amountPaid)
      && r.balance[..1] == Naira && ParseMoney(r.balance[1..]) == Some(inv.balance)
    ensures ReceiptFor(inv, p, payment).reference != ""
    ensures p.None? ==> ReceiptFor(inv, p, payment).patientName == "" && ReceiptFor(inv, p, payment).hospitalNumber == ""
  {
    NairaAmount(payment.amount);
    NairaAmount(inv.patientAmount);
    NairaAmount(inv.amountPaid);
    NairaAmount(inv.balance);
  }

  /** An amount after the currency sign reads back as itself. */
  lemma NairaAmount(c: int)
    ensures var s := Naira + Money(Cents(c));
      |s| >= 1 && s[..1] == Naira && ParseMoney(s[1..]) == Some(c)
  {
    var s := Naira + Money(Cents(c));
    MoneyRoundTrip(c);
    assert s[1..] == Money(Cents(c));
  }
}
