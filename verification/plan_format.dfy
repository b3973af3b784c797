/**
 * The two display helpers of the web handlers: `planAmountFormatted`, which
 * turns plan rows into display records, and `getInvoice`, which renders a
 * plan's price. Amounts are integer cents; `"$%.2f"` of the amount divided
 * by 100 is rendered exactly, from the quotient and the remainder.
 */
module PlanFormat {
  import opened GoTypes

  /** A row of the `plans` table. */
  datatype Plan = Plan(id: Int32, planName: Text, planAmount: Int4, createdAt: Timestamp, updatedAt: Timestamp)

  /** The display record a plan is turned into (formatedPlans). */
  datatype FormattedPlan = FormattedPlan(
    id: Int32,
    planName: string,
    planAmount: Int32,
    createdAt: Time,
    updatedAt: Time,
    planAmountFormatted: string)

  predicate IsDigit(c: char)
  {
    '0' <= c <= '9'
  }

  predicate AllDigits(s: string)
  {
    forall i :: 0 <= i < |s| ==> IsDigit(s[i])
  }

  function DigitChar(d: nat): (c: char)
    requires d < 10
    ensures IsDigit(c) && (c as int) - ('0' as int) == d
  {
    (('0' as int) + d) as char
  }

  function DigitValue(c: char): (d: nat)
    requires IsDigit(c)
    ensures d < 10 && DigitChar(d) == c
  {
    (c as int) - ('0' as int)
  }

  /** The decimal numeral of `n`, without leading zeros. */
  function Decimal(n: nat): (s: string)
    ensures 1 <= |s| && AllDigits(s)
    ensures |s| > 1 ==> s[0] != '0'
  {
    if n < 10 then [DigitChar(n)] else Decimal(n / 10) + [DigitChar(n % 10)]
  }

  /** The value of a numeral. */
  function ParseDecimal(s: string): nat
    requires AllDigits(s)
  {
    if s == [] then 0 else ParseDecimal(s[..|s| - 1]) * 10 + DigitValue(s[|s| - 1])
  }

  lemma {:induction false} ParseDecimalOfDecimal(n: nat)
    ensures ParseDecimal(Decimal(n)) == n
  {
    var s := Decimal(n);
    if n >= 10 {
      assert s[..|s| - 1] == Decimal(n / 10);
      ParseDecimalOfDecimal(n / 10);
    }
  }

  /** `"%.2f"` of `a / 100` for a non-negative amount: the whole units, a dot and two digits of cents. */
  function UnsignedCents(a: nat): string
  {
    Decimal(a / 100) + "." + [DigitChar(a % 100 / 10), DigitChar(a % 10)]
  }

  /** `"$%.2f"` of `amount / 100`: a dollar sign, the sign, then the unsigned rendering. */
  function FormatCents(amount: int): string
  {
    if amount < 0 then "$-" + UnsignedCents(-amount) else "$" + UnsignedCents(amount)
  }

  /** Reads back a string of the shape UnsignedCents produces. */
  function ParseUnsignedCents(body: string): Option<nat>
  {
    if |body| < 4 || body[|body| - 3] != '.' then None
    else
      var whole := body[..|body| - 3];
      var cents := body[|body| - 2..];
      if !AllDigits(whole) || !AllDigits(cents) then None
      else Some(ParseDecimal(whole) * 100 + ParseDecimal(cents))
  }

  /** Reads back a string of the shape FormatCents produces, as an amount in cents. */
  function ParseCents(s: string): Option<int>
  {
    if |s| < 2 || s[0] != '$' then None
    else if s[1] == '-' then
      match ParseUnsignedCents(s[2..])
      case Some(a) => Some(-(a as int))
      case None => None
    else
      match ParseUnsignedCents(s[1..])
      case Some(a) => Some(a)
      case None => None
  }

  lemma UnsignedCentsRoundTrip(a: nat)
    ensures ParseUnsignedCents(UnsignedCents(a)) == Some(a)
  {
    var digits := Decimal(a / 100);
    var tail := [DigitChar(a % 100 / 10), DigitChar(a % 10)];
    var body := UnsignedCents(a);
    assert body[..|body| - 3] == digits;
    assert body[|body| - 2..] == tail;
    ParseDecimalOfDecimal(a / 100);
    assert ParseDecimal(tail) == a % 100 by {
      assert tail[..1] == [DigitChar(a % 100 / 10)];
      assert tail[..1][..0] == [];
      assert ParseDecimal(tail[..1]) == a % 100 / 10;
      assert ParseDecimal(tail) == (a % 100 / 10) * 10 + a % 10;
    }
  }

  /** The price string always reads back as the amount it was made from. */
  lemma FormatCentsRoundTrip(amount: int)
    ensures ParseCents(FormatCents(amount)) == Some(amount)
  {
    var s := FormatCents(amount);
    if amount < 0 {
      assert s[2..] == UnsignedCents(-amount);
      UnsignedCentsRoundTrip(-amount);
    } else {
      assert s[1..] == UnsignedCents(amount);
      assert s[1] == Decimal(amount / 100)[0];
      UnsignedCentsRoundTrip(amount);
    }
  }

  lemma FormatCentsExamples()
    ensures FormatCents(1000) == "$10.00"
    ensures FormatCents(5) == "$0.05"
    ensures FormatCents(-5) == "$-0.05"
  {
    assert Decimal(10) == "10" by {
      assert Decimal(1) == "1";
    }
    assert Decimal(0) == "0";
  }

  /** The display record of one plan: its fields copied, its price formatted. */
  function FormatPlan(p: Plan): (f: FormattedPlan)
    ensures f.id == p.id && f.planName == p.planName.str && f.planAmount == p.planAmount.int32
    ensures f.createdAt == p.createdAt.time && f.updatedAt == p.updatedAt.time
    ensures ParseCents(f.planAmountFormatted) == Some(p.planAmount.int32 as int)
  {
    FormatCentsRoundTrip(p.planAmount.int32 as int);
    FormattedPlan(p.id, p.planName.str, p.planAmount.int32, p.createdAt.time, p.updatedAt.time,
                  FormatCents(p.planAmount.int32 as int))
  }

  /** planAmountFormatted: one display record per plan, in the same order. */
  method PlanAmountFormatted(plans: seq<Plan>) returns (result: seq<FormattedPlan>)
    ensures |result| == |plans|
    ensures forall i :: 0 <= i < |plans| ==> result[i] == FormatPlan(plans[i])
  {
    result := [];
    for i := 0 to |plans|
      invariant |result| == i
      invariant forall k :: 0 <= k < i ==> result[k] == FormatPlan(plans[k])
    {
      var p := plans[i];
      var formatted := FormattedPlan(p.id, p.planName.str, p.planAmount.int32, p.createdAt.time,
                                     p.updatedAt.time, FormatCents(p.planAmount.int32 as int));
      result := result + [formatted];
    }
  }

  /** getInvoice: the plan's price string, never an error; the same string its display record shows. */
  function GetInvoice(p: Plan): (r: Result<string, string>)
    ensures r.Ok? && r.value == FormatPlan(p).planAmountFormatted
    ensures ParseCents(r.value) == Some(p.planAmount.int32 as int)
  {
    FormatCentsRoundTrip(p.planAmount.int32 as int);
    Ok(FormatCents(p.planAmount.int32 as int))
  }
}
