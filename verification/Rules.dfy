/** The seven financial rules and what their outcomes mean. */
module Rules {
  import opened Options
  import opened DecimalContext
  import opened Text

  datatype LineItem = LineItem(description: string, lineTotal: Option<real>)

  /** What extraction hands over; every field may be missing. */
  datatype ExtractedInvoice = ExtractedInvoice(
    supplierName: Option<string>,
    supplierTaxId: Option<string>,
    invoiceNumber: Option<string>,
    invoiceDate: Option<string>,
    currency: Option<string>,
    purchaseOrderNumber: Option<string>,
    lineItems: seq<LineItem>,
    subtotal: Option<real>,
    taxAmount: Option<real>,
    total: Option<real>)

  datatype PoSnapshot = PoSnapshot(poNumber: string, currency: string, total: real, vendorId: nat)

  datatype ValidationInput = ValidationInput(
    invoice: ExtractedInvoice,
    matchedPo: Option<PoSnapshot>,
    matchedVendorId: Option<nat>,
    duplicateCandidates: seq<nat>)

  datatype Rule =
    | RequiredFieldsPresent
    | ArithmeticConsistency
    | LineItemsSumToSubtotal
    | PoAmountTolerance
    | PoCurrencyMatch
    | PoVendorMismatch
    | DuplicateInvoiceNumber

  datatype Severity = Info | Warning | Error

  datatype RuleResult = RuleResult(rule: Rule, severity: Severity, passed: bool)

  const AMOUNT_TOLERANCE := 0.02
  const PO_TOLERANCE_PCT := 0.02

  // Results that pass, that fail but only warn, and that block.

  function Pass(rule: Rule): RuleResult { RuleResult(rule, Info, true) }
  function Warn(rule: Rule): RuleResult { RuleResult(rule, Warning, false) }
  function Block(rule: Rule): RuleResult { RuleResult(rule, Error, false) }

  // ---- the rules ------------------------------------------------------------

  function RuleRequiredFieldsPresent(inp: ValidationInput): RuleResult {
    if inp.invoice.supplierName.None? || inp.invoice.invoiceNumber.None?
       || inp.invoice.invoiceDate.None? || inp.invoice.total.None?
    then Block(RequiredFieldsPresent)
    else Pass(RequiredFieldsPresent)
  }

  function RuleArithmeticConsistency(inp: ValidationInput): RuleResult {
    if inp.invoice.subtotal.None? || inp.invoice.taxAmount.None? || inp.invoice.total.None? then
      Pass(ArithmeticConsistency)
    else
      var expected := Round(inp.invoice.subtotal.value + inp.invoice.taxAmount.value);
      var diff := Abs(Round(expected - inp.invoice.total.value));
      if diff <= AMOUNT_TOLERANCE then Pass(ArithmeticConsistency) else Block(ArithmeticConsistency)
  }

  function SumOfLines(sum: real, items: seq<LineItem>): real
    requires forall i :: 0 <= i < |items| ==> items[i].lineTotal.Some?
    decreases items
  {
    if items == [] then sum else SumOfLines(Round(sum + items[0].lineTotal.value), items[1..])
  }

  function RuleLineItemsSumToSubtotal(inp: ValidationInput): RuleResult {
    var items := inp.invoice.lineItems;
    if items == [] || inp.invoice.subtotal.None? then Pass(LineItemsSumToSubtotal)
    else if exists i :: 0 <= i < |items| && items[i].lineTotal.None? then Warn(LineItemsSumToSubtotal)
    else if Abs(Round(SumOfLines(0.0, items) - inp.invoice.subtotal.value)) <= AMOUNT_TOLERANCE then
      Pass(LineItemsSumToSubtotal)
    else Warn(LineItemsSumToSubtotal)
  }

  /** The relative distance of an invoice total from its order's total, as computed. */
  function Deviation(invoiceTotal: real, poTotal: real): real
    requires poTotal != 0.0
  {
    Round(Abs(Round(invoiceTotal - poTotal)) / poTotal)
  }

  function RulePoAmountTolerance(inp: ValidationInput): RuleResult {
    if inp.matchedPo.None? then Pass(PoAmountTolerance)
    else if inp.invoice.total.None? then Warn(PoAmountTolerance)
    else if inp.matchedPo.value.total == 0.0 then Warn(PoAmountTolerance)
    else if Deviation(inp.invoice.total.value, inp.matchedPo.value.total) <= PO_TOLERANCE_PCT then
      Pass(PoAmountTolerance)
    else Block(PoAmountTolerance)
  }

  function CanonicalCurrency(currency: string): string {
    Upper(Strip(currency))
  }

  function RulePoCurrencyMatch(inp: ValidationInput): RuleResult {
    if inp.matchedPo.None? then Pass(PoCurrencyMatch)
    else if inp.invoice.currency.None? || inp.invoice.currency.value == "" then Warn(PoCurrencyMatch)
    else if CanonicalCurrency(inp.invoice.currency.value) == CanonicalCurrency(inp.matchedPo.value.currency) then
      Pass(PoCurrencyMatch)
    else Block(PoCurrencyMatch)
  }

  function RulePoVendorMismatch(inp: ValidationInput): RuleResult {
    if inp.matchedPo.None? then Pass(PoVendorMismatch)
    else if inp.matchedVendorId.None? then Warn(PoVendorMismatch)
    else if inp.matchedPo.value.vendorId == inp.matchedVendorId.value then Pass(PoVendorMismatch)
    else Block(PoVendorMismatch)
  }

  function RuleDuplicateInvoiceNumber(inp: ValidationInput): RuleResult {
    if inp.invoice.invoiceNumber.None? || inp.invoice.invoiceNumber.value == "" then Pass(DuplicateInvoiceNumber)
    else if inp.duplicateCandidates == [] then Pass(DuplicateInvoiceNumber)
    else Block(DuplicateInvoiceNumber)
  }

  function RunRules(inp: ValidationInput): seq<RuleResult> {
    [ RuleRequiredFieldsPresent(inp),
      RuleArithmeticConsistency(inp),
      RuleLineItemsSumToSubtotal(inp),
      RulePoAmountTolerance(inp),
      RulePoCurrencyMatch(inp),
      RulePoVendorMismatch(inp),
      RuleDuplicateInvoiceNumber(inp) ]
  }

  predicate HasBlockingFailure(results: seq<RuleResult>) {
    exists i :: 0 <= i < |results| && results[i].severity == Error && !results[i].passed
  }

  // ---- what a clean run means --------------------------------------------------

  predicate RequiredFields(invoice: ExtractedInvoice) {
    invoice.supplierName.Some? && invoice.invoiceNumber.Some? && invoice.invoiceDate.Some? && invoice.total.Some?
  }

  /** Subtotal and tax add up to the total, up to the tolerance, when all three are present. */
  predicate AddsUp(invoice: ExtractedInvoice) {
    invoice.subtotal.Some? && invoice.taxAmount.Some? && invoice.total.Some? ==>
      Abs(Round(Round(invoice.subtotal.value + invoice.taxAmount.value) - invoice.total.value)) <= AMOUNT_TOLERANCE
  }

  /** The total is near the order's total. An order of zero or less never objects. */
  predicate NearOrder(invoice: ExtractedInvoice, po: PoSnapshot) {
    invoice.total.Some? && po.total > 0.0 ==>
      Abs(Round(invoice.total.value - po.total)) / po.total <= 0.02 + HALF_UNIT
  }

  ghost predicate SameCurrency(invoice: ExtractedInvoice, po: PoSnapshot) {
    invoice.currency.Some? && invoice.currency.value != "" ==>
      SameText(invoice.currency.value, po.currency)
  }

  /** Currencies are compared up to outer blanks and the case of letters. */
  lemma CanonicalCurrencyDecides(a: string, b: string)
    ensures CanonicalCurrency(a) == CanonicalCurrency(b) <==> SameText(a, b)
  {
    var i, j := StripTrims(a);
    var k, l := StripTrims(b);
    UppersAgree(a[i..j], b[k..l]);
    if SameText(a, b) {
      var p, q, r, t :| Trimmed(a, p, q) && Trimmed(b, r, t) && SameLetters(a[p..q], b[r..t]);
      TrimmedIsUnique(a, i, j, p, q);
      TrimmedIsUnique(b, k, l, r, t);
    }
  }

  /** A usable invoice number: present and not the empty string. */
  predicate Numbered(invoice: ExtractedInvoice) {
    invoice.invoiceNumber.Some? && invoice.invoiceNumber.value != ""
  }

  /** No rule blocks exactly when every check that applies holds. */
  lemma CleanExactlyWhen(inp: ValidationInput)
    ensures !HasBlockingFailure(RunRules(inp)) <==>
            && RequiredFields(inp.invoice)
            && AddsUp(inp.invoice)
            && (inp.matchedPo.Some? ==>
                  && NearOrder(inp.invoice, inp.matchedPo.value)
                  && SameCurrency(inp.invoice, inp.matchedPo.value)
                  && (inp.matchedVendorId.Some? ==> inp.matchedPo.value.vendorId == inp.matchedVendorId.value))
            && (Numbered(inp.invoice) ==> inp.duplicateCandidates == [])
  {
    var r := RunRules(inp);
    RulesReport(inp);
    if inp.matchedPo.Some? {
      OrderRulesReport(inp);
    } else {
      NoOrderNoReport(inp);
    }
    BlocksAt(r);
  }

  lemma BlocksAt(r: seq<RuleResult>)
    requires |r| == 7 && forall i :: 0 <= i < 7 ==> Reports(r[i], r[i].rule, r[i].severity)
    ensures HasBlockingFailure(r) <==>
            || r[0].severity == Error || r[1].severity == Error || r[2].severity == Error || r[3].severity == Error
            || r[4].severity == Error || r[5].severity == Error || r[6].severity == Error
  {
  }

  /** The percentage test for every order total: no order of zero or less is ever exceeded. */
  lemma ToleranceMeans(invoiceTotal: real, poTotal: real)
    ensures poTotal > 0.0 ==>
              (Deviation(invoiceTotal, poTotal) <= PO_TOLERANCE_PCT
               <==> Abs(Round(invoiceTotal - poTotal)) / poTotal <= 0.02 + HALF_UNIT)
    ensures poTotal < 0.0 ==> Deviation(invoiceTotal, poTotal) <= PO_TOLERANCE_PCT
  {
    var d := Abs(Round(invoiceTotal - poTotal));
    if poTotal > 0.0 {
      QuotientSign(d, poTotal);
      TwoPercentTest(d / poTotal);
    } else if poTotal < 0.0 {
      QuotientSign(d, -poTotal);
      NegatedQuotient(d, poTotal);
      RoundOfNonPositive(d / poTotal);
    }
  }

  lemma QuotientSign(d: real, p: real)
    requires d >= 0.0 && p > 0.0
    ensures d / p >= 0.0
  {
  }

  lemma NegatedQuotient(d: real, p: real)
    requires p < 0.0
    ensures d / p == -(d / -p)
  {
  }

  lemma RoundOfNonPositive(x: real)
    requires x <= 0.0
    ensures Round(x) <= 0.0
  {
    if x < 0.0 {
      RoundPositiveStaysInDecade(-x);
    }
  }

  // ---- on cents -----------------------------------------------------------------

  /** With amounts in whole cents, subtotal + tax may miss the total by two cents and no more. */
  lemma AddsUpOnCents(invoice: ExtractedInvoice, subtotal: int, tax: int, total: int)
    requires invoice.subtotal.Some? && invoice.taxAmount.Some? && invoice.total.Some?
    requires IsAmount(invoice.subtotal.value, subtotal)
    requires IsAmount(invoice.taxAmount.value, tax)
    requires IsAmount(invoice.total.value, total)
    ensures AddsUp(invoice) <==> -2 <= subtotal + tax - total <= 2
  {
    RoundExactOnCents(invoice.subtotal.value + invoice.taxAmount.value, subtotal + tax);
    RoundExactOnCents(invoice.subtotal.value + invoice.taxAmount.value - invoice.total.value, subtotal + tax - total);
  }

  /** An amount that a twelve-digit column with two decimals can hold. */
  predicate IsAmount(x: real, cents: int) {
    x * 100.0 == cents as real && -1_000_000_000_000 < cents < 1_000_000_000_000
  }

  /**
   With both totals in whole cents and a positive order, the test is the exact
   two per cent: fifty times the difference does not exceed the order.
   */
  lemma NearOrderOnCents(invoice: ExtractedInvoice, po: PoSnapshot, total: int, ordered: int)
    requires invoice.total.Some? && IsAmount(invoice.total.value, total)
    requires IsAmount(po.total, ordered) && ordered > 0
    ensures NearOrder(invoice, po) <==> -ordered <= 50 * (total - ordered) <= ordered
  {
    var difference := total - ordered;
    RoundExactOnCents(invoice.total.value - po.total, difference);
    assert invoice.total.value - po.total == difference as real / 100.0;
    assert po.total == ordered as real / 100.0;
    var q := Abs(difference as real / 100.0) / (ordered as real / 100.0);
    QuotientSign(Abs(difference as real / 100.0), po.total);
    TwoPercentTest(q);
    TwoPercentTestExactOnCents(difference, ordered);
  }

  // ---- every outcome of every rule ------------------------------------------------

  predicate Reports(r: RuleResult, rule: Rule, severity: Severity) {
    r == RuleResult(rule, severity, severity == Info)
  }

  /** The totals of the lines, all present, add up to the subtotal as computed. */
  predicate LinesAddUp(items: seq<LineItem>, subtotal: real) {
    && (forall i :: 0 <= i < |items| ==> items[i].lineTotal.Some?)
    && Abs(Round(SumOfLines(0.0, items) - subtotal)) <= 0.02
  }

  /** What each of the seven rules reports: nothing, a warning that blocks nobody, or an error. */
  lemma RulesReport(inp: ValidationInput)
    ensures var r, invoice := RunRules(inp), inp.invoice;
            && |r| == 7
            && Reports(r[0], RequiredFieldsPresent,
                       if invoice.supplierName.Some? && invoice.invoiceNumber.Some?
                          && invoice.invoiceDate.Some? && invoice.total.Some? then Info else Error)
            && Reports(r[1], ArithmeticConsistency, if AddsUp(invoice) then Info else Error)
            && Reports(r[2], LineItemsSumToSubtotal,
                       if invoice.lineItems == [] || invoice.subtotal.None?
                          || LinesAddUp(invoice.lineItems, invoice.subtotal.value) then Info else Warning)
            && Reports(r[6], DuplicateInvoiceNumber,
                       if Numbered(invoice) && inp.duplicateCandidates != [] then Error else Info)
  {
  }

  lemma OrderRulesReport(inp: ValidationInput)
    requires inp.matchedPo.Some?
    ensures var r, invoice, po := RunRules(inp), inp.invoice, inp.matchedPo.value;
            && |r| == 7
            && Reports(r[3], PoAmountTolerance,
                       if invoice.total.None? || po.total == 0.0 then Warning
                       else if NearOrder(invoice, po) then Info else Error)
            && Reports(r[4], PoCurrencyMatch,
                       if invoice.currency.None? || invoice.currency.value == "" then Warning
                       else if SameText(invoice.currency.value, po.currency) then Info else Error)
            && Reports(r[5], PoVendorMismatch,
                       if inp.matchedVendorId.None? then Warning
                       else if inp.matchedVendorId.value == po.vendorId then Info else Error)
  {
    var invoice, po := inp.invoice, inp.matchedPo.value;
    if invoice.total.Some? {
      ToleranceMeans(invoice.total.value, po.total);
    }
    if invoice.currency.Some? {
      CanonicalCurrencyDecides(invoice.currency.value, po.currency);
    }
  }

  /** Without an order the three rules about it have nothing to say. */
  lemma NoOrderNoReport(inp: ValidationInput)
    requires inp.matchedPo.None?
    ensures var r := RunRules(inp);
            && |r| == 7
            && Reports(r[3], PoAmountTolerance, Info)
            && Reports(r[4], PoCurrencyMatch, Info)
            && Reports(r[5], PoVendorMismatch, Info)
  {
  }

  function Total(cents: seq<int>): int {
    if cents == [] then 0 else cents[0] + Total(cents[1..])
  }

  /** Every partial sum has at most 28 digits. */
  predicate PartialSumsFit(sum: int, cents: seq<int>)
    decreases cents
  {
    -CENTS_LIMIT < sum < CENTS_LIMIT && (cents == [] || PartialSumsFit(sum + cents[0], cents[1..]))
  }

  lemma {:induction false} SumOfLinesOnCents(sum: real, whole: int, items: seq<LineItem>, cents: seq<int>)
    requires |items| == |cents| && sum * 100.0 == whole as real && PartialSumsFit(whole, cents)
    requires forall i :: 0 <= i < |items| ==>
               items[i].lineTotal.Some? && items[i].lineTotal.value * 100.0 == cents[i] as real
    ensures SumOfLines(sum, items) * 100.0 == (whole + Total(cents)) as real
    decreases items
  {
    if items != [] {
      RoundExactOnCents(sum + items[0].lineTotal.value, whole + cents[0]);
      SumOfLinesOnCents(sum + items[0].lineTotal.value, whole + cents[0], items[1..], cents[1..]);
    }
  }

  /** On whole cents the lines may miss the subtotal by two cents and no more. */
  lemma LineItemsOnCents(items: seq<LineItem>, cents: seq<int>, subtotal: real, whole: int)
    requires |items| == |cents| && subtotal * 100.0 == whole as real
    requires forall i :: 0 <= i < |items| ==>
               items[i].lineTotal.Some? && items[i].lineTotal.value * 100.0 == cents[i] as real
    requires PartialSumsFit(0, cents) && -CENTS_LIMIT < Total(cents) - whole < CENTS_LIMIT
    ensures LinesAddUp(items, subtotal) <==> -2 <= Total(cents) - whole <= 2
  {
    SumOfLinesOnCents(0.0, 0, items, cents);
    RoundExactOnCents(SumOfLines(0.0, items) - subtotal, Total(cents) - whole);
  }
}
