/** The payment dialog: its form fields, the installment value, the cash change, the
    rule that blocks confirmation, and the payment record handed to the checkout. */
module PaymentModal {
  import opened Wrappers
  import opened Records
  import Text
  import Pricing

  /** The methods offered, in the order the dialog lists them. */
  const PaymentMethods: seq<PaymentMethod> := [Credit, Debit, Pix, Cash]

  const CreditCardBrands: seq<string> := ["Visa", "Mastercard", "American Express", "Elo", "Hipercard"]

  /** The installment counts the select offers. */
  type Installments = n: int | 1 <= n <= 12 witness 1

  /** `Array.from({ length: 12 }, (_, i) => i + 1)`. */
  function InstallmentOptions(): (r: seq<Installments>)
    ensures |r| == 12 && forall i :: 0 <= i < 12 ==> r[i] == i + 1
  {
    seq(12, i requires 0 <= i < 12 => (i + 1) as Installments)
  }

  /** The dialog's fields; `clientId` is the value of the client select ('' for anonymous). */
  datatype PaymentForm = PaymentForm(
    selectedMethod: PaymentMethod,
    installments: Installments,
    cardBrand: string,
    cashAmount: real,
    clientId: string)

  /** The fields when the dialog opens for a sale of `total`. */
  function InitialForm(total: real): (f: PaymentForm)
    ensures f.selectedMethod == Credit && f.installments == 1 && f.cardBrand == "Visa"
    ensures f.cashAmount == total && f.clientId == ""
  {
    PaymentForm(Credit, 1, "Visa", total, "")
  }

  /** `total / installments`, kept unrounded. */
  function InstallmentValue(total: real, installments: Installments): (v: real)
    ensures v * installments as real == total
  {
    total / installments as real
  }

  /** `cashAmount - total`. */
  function Change(cashAmount: real, total: real): (c: real)
    ensures cashAmount == total + c
  {
    cashAmount - total
  }

  /** The confirm button's `disabled`: cash chosen and less cash than the total. */
  predicate ConfirmDisabled(form: PaymentForm, total: real)
  {
    form.selectedMethod == Cash && form.cashAmount < total
  }

  /** The cash field's `onChange`: `Number(value) || 0`. */
  function SetCashInput(form: PaymentForm, input: Option<real>): (f: PaymentForm)
    ensures f == form.(cashAmount := Pricing.NumberOrZero(input))
  {
    form.(cashAmount := Pricing.NumberOrZero(input))
  }

  /** `clientId ? parseInt(clientId, 10) : null`; a NaN result is read as no client. */
  function ParseClientId(field: string): (r: Option<int>)
    ensures field == "" ==> r == None
  {
    if field == "" then None else Text.ParseInt(field)
  }

  /** `handleConfirm`: `method`, `total` and `clientId` always; installments, installment
      value and brand only for credit; cash amount and change only for cash. */
  function HandleConfirm(form: PaymentForm, total: real): (p: Payment)
    ensures p.paymentMethod == form.selectedMethod && p.total == total
    ensures p.clientId == ParseClientId(form.clientId)
    ensures p.extra.CreditExtra? <==> form.selectedMethod == Credit
    ensures p.extra.CashExtra? <==> form.selectedMethod == Cash
    ensures p.extra.NoExtra? <==> form.selectedMethod in {Debit, Pix}
    ensures p.extra.CreditExtra? ==>
      p.extra.installments == form.installments && p.extra.cardBrand == form.cardBrand
      && p.extra.installmentValue * form.installments as real == total
    ensures p.extra.CashExtra? ==> p.extra.cashAmount == form.cashAmount && p.extra.cashAmount == total + p.extra.change
  {
    var extra :=
      match form.selectedMethod
      case Credit => CreditExtra(form.installments, InstallmentValue(total, form.installments), form.cardBrand)
      case Cash => CashExtra(form.cashAmount, Change(form.cashAmount, total))
      case _ => NoExtra;
    Payment(form.selectedMethod, total, ParseClientId(form.clientId), extra)
  }

  /** The dialog opens with the cash field equal to the total, so the change shown is zero. */
  lemma InitialChangeIsZero(total: real)
    ensures Change(InitialForm(total).cashAmount, total) == 0.0
  {
  }

  /** Confirmation is blocked exactly when cash is short, so every confirmed cash payment
      carries a non-negative change. */
  lemma ConfirmedCashCoversTotal(form: PaymentForm, total: real)
    requires !ConfirmDisabled(form, total) && form.selectedMethod == Cash
    ensures HandleConfirm(form, total).extra.change >= 0.0
  {
  }

  /** Any method other than cash can always be confirmed. */
  lemma OnlyCashCanBlock(form: PaymentForm, total: real)
    ensures form.selectedMethod != Cash ==> !ConfirmDisabled(form, total)
  {
  }

  /** Choosing client `n` in the select records `n`: its option value parses back to it. */
  lemma ChosenClientIdRecorded(form: PaymentForm, total: real, n: nat)
    ensures HandleConfirm(form.(clientId := Text.DecimalString(n)), total).clientId == Some(n)
  {
    Text.ParseIntOfDecimal(n);
  }

  /** The installment examples: 150.00 in 3 is 50.00 exactly, in 4 it is 37.5. */
  lemma InstallmentExamples()
    ensures InstallmentValue(150.0, 3) == 50.0 && InstallmentValue(150.0, 4) == 37.5
  {
  }

  /** The cash example: 200.00 tendered on 180.00 gives 20.00 of change and is accepted. */
  lemma CashExample()
    ensures var form := InitialForm(180.0).(selectedMethod := Cash, cashAmount := 200.0);
            !ConfirmDisabled(form, 180.0) && HandleConfirm(form, 180.0).extra == CashExtra(200.0, 20.0)
  {
  }
}
