/**
 * The checks and field rules that GlobalEntryFormModal, InlineEntryForm, EditSaleModal and
 * EditCostModal share: what a sale or a cost must satisfy to be saved, the sale amount the
 * forms compute from the quantity, and the two flags that exclude each other.
 */
module EntryRules {
  import opened Wrappers
  import opened Types
  import opened Text
  import opened Numbers

  /** The `type` prop of the entry forms. */
  datatype EntryKind = SaleKind | CostKind

  /** `Omit<Sale, 'id'>` as the forms emit it. */
  datatype NewSale = NewSale(description: string, quantity: int, amount: real)

  /** The cost a creating form emits; it has no reimbursement date or notes. */
  datatype NewCost = NewCost(description: string, amount: real, date: DateField, isDonation: bool, isReimbursement: bool, notes: string)

  datatype Entry = SaleEntry(sale: NewSale) | CostEntry(cost: NewCost)

  /** The text inputs the creating forms share besides the quantity. */
  datatype TextInput =
    | SaleDescriptionInput(text: string)
    | SaleAmountInput(text: string)
    | CostDescriptionInput(text: string)
    | CostAmountInput(text: string)
    | CostDateInput(date: DateField)
    | CostNotesInput(text: string)

  /**
   * The sale check: rejected when `parseInt(quantity, 10)` is NaN or not positive, or when
   * `parseFloat(amount)` is NaN or negative; otherwise the two numbers.
   */
  function SaleValues(quantity: string, amount: NumText): (r: Option<(int, real)>)
    ensures r.None? <==> (ParseInt(quantity).None? || ParseInt(quantity).value <= 0
                          || FloatOf(amount).None? || FloatOf(amount).value < 0.0)
    ensures r.Some? ==> r.value.0 > 0 && r.value.1 >= 0.0
    ensures r.Some? ==> ParseInt(quantity) == Some(r.value.0) && FloatOf(amount) == Some(r.value.1)
  {
    var q := ParseInt(quantity);
    var a := FloatOf(amount);
    if q.None? || q.value <= 0 || a.None? || a.value < 0.0 then None else Some((q.value, a.value))
  }

  /**
   * The cost check: rejected for a blank description, an amount that is NaN or negative, or
   * an amount of 0 on a cost that is not a donation; otherwise the amount.
   */
  function CostAmount(description: string, amount: NumText, isDonation: bool): (r: Option<real>)
    ensures r.None? <==> (IsBlank(description) || FloatOf(amount).None? || FloatOf(amount).value < 0.0
                          || (FloatOf(amount).value == 0.0 && !isDonation))
    ensures r.Some? ==> FloatOf(amount) == Some(r.value) && r.value >= 0.0
    ensures r.Some? && r.value == 0.0 ==> isDonation
  {
    var a := FloatOf(amount);
    if IsBlank(description) || a.None? || a.value < 0.0 || (a.value == 0.0 && !isDonation) then None
    else Some(a.value)
  }

  /** The amount the forms write for a quantity: `(q * ticketPrice).toFixed(2)` for a positive q, else ''. */
  function AutoAmount(quantity: string, ticketPrice: real): NumText {
    var q := ParseInt(quantity);
    if q.Some? && q.value > 0 then Fixed2(q.value as real * ticketPrice) else EmptyText
  }

  /**
   * The flags after the donation box is set to `checked` and the effect on `isDonation` has
   * run: checking it clears the reimbursement flag.
   */
  function AfterDonationBox(checked: bool, isReimbursement: bool): (r: (bool, bool))
    ensures r.0 == checked && !(r.0 && r.1)
    ensures !checked ==> r.1 == isReimbursement
  {
    (checked, if checked then false else isReimbursement)
  }

  /** The flags after the reimbursement box is set to `checked`: checking it clears the donation flag. */
  function AfterReimbursementBox(checked: bool, isDonation: bool): (r: (bool, bool))
    ensures r.1 == checked && !(r.0 && r.1)
    ensures !checked ==> r.0 == isDonation
  {
    (if checked then false else isDonation, checked)
  }

  /**
   * A sale whose amount the form computed passes the check: for a positive quantity and a
   * non-negative price the amount is `q * price` to the cent, within half a cent.
   */
  lemma AutoAmountAccepted(quantity: string, ticketPrice: real)
    requires ParseInt(quantity).Some? && ParseInt(quantity).value > 0 && ticketPrice >= 0.0
    ensures SaleValues(quantity, AutoAmount(quantity, ticketPrice)).Some?
    ensures var (q, a) := SaleValues(quantity, AutoAmount(quantity, ticketPrice)).value;
      q == ParseInt(quantity).value && -0.005 <= a - q as real * ticketPrice <= 0.005
  {
    var x := ParseInt(quantity).value as real * ticketPrice;
    ProductNonNegative(ParseInt(quantity).value as real, ticketPrice);
    AutoAmountOfParsed(quantity, ParseInt(quantity).value, ticketPrice);
    FixedAmountAccepted(quantity, x);
  }

  lemma ProductNonNegative(a: real, b: real)
    requires a >= 0.0 && b >= 0.0
    ensures a * b >= 0.0
  {
  }

  /** A quantity the check accepts together with the rendering of a non-negative amount. */
  lemma FixedAmountAccepted(quantity: string, x: real)
    requires ParseInt(quantity).Some? && ParseInt(quantity).value > 0 && x >= 0.0
    ensures SaleValues(quantity, Fixed2(x)).Some?
    ensures var (q, a) := SaleValues(quantity, Fixed2(x)).value;
      q == ParseInt(quantity).value && -0.005 <= a - x <= 0.005
  {
    Round2Close(x);
  }

  /** The amount computed for a quantity written out from a positive number. */
  lemma AutoAmountOfNumber(n: int, ticketPrice: real)
    requires n > 0
    ensures AutoAmount(IntToString(n), ticketPrice) == Fixed2(n as real * ticketPrice)
  {
    var text := IntToString(n);
    ParseIntOfString(n);
    AutoAmountOfParsed(text, n, ticketPrice);
  }

  /** The amount computed for a quantity that reads as a positive number. */
  lemma AutoAmountOfParsed(quantity: string, n: int, ticketPrice: real)
    requires ParseInt(quantity) == Some(n) && n > 0
    ensures AutoAmount(quantity, ticketPrice) == Fixed2(n as real * ticketPrice)
  {
  }

  /** An invalid quantity clears the amount, and a cleared amount is always rejected. */
  lemma ClearedAmountRejected(quantity: string, ticketPrice: real, q2: string)
    requires ParseInt(quantity).None? || ParseInt(quantity).value <= 0
    ensures AutoAmount(quantity, ticketPrice) == EmptyText
    ensures SaleValues(q2, EmptyText).None?
  {
    assert ParseFloat("") == None by {
      assert SkipWhitespace("") == "";
      assert DigitRun("") == 0;
    }
  }
}
