// Amounts of money in the billing service (src/billing/billing.service.ts): what a price comes to
// in a currency's smallest unit, and which payment is the expected one.
module BillingAmounts {
  import opened Seqs
  import opened Billing
  import P = Proration
  import Text

  // The whole number nearest to an exact amount, on a tie the larger one.
  predicate Rounds(amount: int, exact: real) {
    amount as real - 0.5 <= exact < amount as real + 0.5
  }

  lemma RoundsToOne(a: int, b: int, exact: real)
    requires Rounds(a, exact) && Rounds(b, exact)
    ensures a == b
  {
  }

  // The currencies whose smallest unit is the whole.
  predicate IsWhole(code: string) {
    || code == "BIF" || code == "CLP" || code == "DJF" || code == "GNF" || code == "JPY" || code == "KMF"
    || code == "KRW" || code == "MGA" || code == "PYG" || code == "RWF" || code == "UGX" || code == "VND"
    || code == "VUV" || code == "XAF" || code == "XOF" || code == "XPF"
  }

  lemma WholeCurrencies(code: string)
    ensures code in ZERO_DECIMAL <==> IsWhole(code)
  {
  }

  // The smallest units of one unit of a currency.
  function UnitsOf(currency: string): real {
    if IsWhole(P.NormalizeCurrency(currency)) then 1.0 else 100.0
  }

  // A price for some seats comes, in the smallest unit, to the nearest whole number.
  lemma PriceRounds(price: real, seats: int, currency: string)
    ensures Rounds(MoneyToSubunit(price, seats, currency), price * seats as real * UnitsOf(currency))
  {
    WholeCurrencies(P.NormalizeCurrency(currency));
    var exact := price * seats as real * UnitsOf(currency);
    assert MoneyToSubunit(price, seats, currency) == (exact + 0.5).Floor;
  }

  // Cents of an amount in the smallest unit.
  function CentsOf(amount: int, code: string): int {
    if IsWhole(code) then amount * 100 else amount
  }

  // A code in capitals without spaces around it; dollars when none is sent.
  function CurrencyCode(currency: Option<string>): string {
    Text.Upper(Text.Trim(if currency.Some? then currency.value else "USD"))
  }

  lemma CentsAreBooked(amount: int, currency: Option<string>)
    ensures NormalizeCurrency(currency) == CurrencyCode(currency)
    ensures SubunitToCents(amount, currency) == CentsOf(amount, CurrencyCode(currency))
  {
    WholeCurrencies(CurrencyCode(currency));
  }

  function SeatsOf(o: PaystackObject): int {
    if o.metaSeatCount.Some? then o.metaSeatCount.value else 1
  }

  // The amount is the one the metadata expects, or else the price for the seats.
  predicate PaysAmount(amount: int, o: PaystackObject, plan: Plan) {
    if o.expectedAmount.Some? then amount == o.expectedAmount.value
    else Rounds(amount, plan.price * SeatsOf(o) as real * UnitsOf(plan.currency))
  }

  // The currency is the one the metadata expects, or else the plan's; one that is not sent is
  // taken to be that one.
  predicate PaysCurrency(o: PaystackObject, plan: Plan) {
    o.currency.Some? ==>
      CurrencyCode(o.currency)
          == CurrencyCode(if Given(o.expectedCurrency) then o.expectedCurrency else Some(plan.currency))
  }

  // The payment is the expected one.
  predicate Pays(o: PaystackObject, plan: Plan) {
    o.amount.Some? && o.amount.value > 0 && PaysAmount(o.amount.value, o, plan) && PaysCurrency(o, plan)
  }

  lemma AmountIsExpectedIff(amount: int, o: PaystackObject, plan: Plan)
    ensures amount == ExpectedAmount(o, plan) <==> PaysAmount(amount, o, plan)
  {
    if o.expectedAmount.None? {
      OnlyPrice(amount, plan.price, SeatsOf(o), plan.currency);
    }
  }

  lemma OnlyPrice(amount: int, price: real, seats: int, currency: string)
    ensures amount == MoneyToSubunit(price, seats, currency)
       <==> Rounds(amount, price * seats as real * UnitsOf(currency))
  {
    var exact, priced := price * seats as real * UnitsOf(currency), MoneyToSubunit(price, seats, currency);
    PriceRounds(price, seats, currency);
    if Rounds(amount, exact) {
      RoundsToOne(amount, priced, exact);
    }
  }

  lemma CurrencyIsExpectedIff(o: PaystackObject, plan: Plan)
    ensures P.NormalizeCurrency(o.currency.GetOr(ExpectedCurrency(o, plan))) == ExpectedCurrency(o, plan)
       <==> PaysCurrency(o, plan)
  {
    if o.currency.None? {
      Text.NormalizingTwiceIsOnce(Str(o.expectedCurrency).GetOr(plan.currency));
    }
  }

  lemma PaysIff(o: PaystackObject, plan: Plan)
    ensures PaymentMatches(o, plan) <==> Pays(o, plan)
  {
    CurrencyIsExpectedIff(o, plan);
    if o.amount.Some? {
      AmountIsExpectedIff(o.amount.value, o, plan);
    }
  }
}
