/** Money: an integer amount tagged with one of four currency codes.
    Values are immutable; conversion goes through US dollars using two
    fixed rate tables and rounds to the nearest integer (ties away from
    zero). An unknown currency code is an error, not a value. */
module MoneyModel {
  import opened Numerics

  /** The currency codes a Money may carry. */
  const ValidCurrency: seq<string> := ["USD", "GBP", "EUR", "CAN"]

  type Currency = code: string | code in ValidCurrency witness "USD"

  /** Units of US dollars per unit of each currency. */
  const ToUSD: map<string, real> := map["USD" := 1.0, "GBP" := 2.0, "EUR" := 2.0 / 3.0, "CAN" := 0.8]

  /** Units of each currency per US dollar. */
  const FromUSD: map<string, real> := map["USD" := 1.0, "GBP" := 0.5, "EUR" := 1.5, "CAN" := 1.25]

  datatype Money = Money(amount: int, currency: Currency)

  datatype MoneyError = InvalidCurrency | MissingConversionRate

  datatype Result = Ok(value: Money) | Err(error: MoneyError)

  /** The exact factor that turns an amount in `source` into one in `target`. */
  function Rate(source: Currency, target: Currency): real {
    ToUSD[source] * FromUSD[target]
  }

  /** Every currency has an entry in both tables. */
  lemma RatesCoverEveryCurrency(c: Currency)
    ensures c in ToUSD && c in FromUSD
    ensures ToUSD[c] > 0.0 && FromUSD[c] > 0.0
  {
  }

  /** The two tables are inverse to each other, so going to USD and back is exact. */
  lemma {:induction false} RateToSelfIsOne(c: Currency)
    ensures Rate(c, c) == 1.0
  {
    assert c == "USD" || c == "GBP" || c == "EUR" || c == "CAN";
  }

  /** The rate from a to b times the rate from b to a is one. */
  lemma {:induction false} RatesAreReciprocal(a: Currency, b: Currency)
    ensures Rate(a, b) * Rate(b, a) == 1.0
  {
    RateToSelfIsOne(a);
    RateToSelfIsOne(b);
    calc {
      Rate(a, b) * Rate(b, a);
      (ToUSD[a] * FromUSD[b]) * (ToUSD[b] * FromUSD[a]);
      (ToUSD[a] * FromUSD[a]) * (ToUSD[b] * FromUSD[b]);
      Rate(a, a) * Rate(b, b);
    }
  }

  /** Construction: fails on a code outside the valid set. */
  function NewMoney(amount: int, code: string): (r: Result)
    ensures r.Ok? <==> code in ValidCurrency
    ensures r.Err? ==> r.error == InvalidCurrency
    ensures r.Ok? ==> r.value.amount == amount && r.value.currency == code
  {
    if code !in ValidCurrency then Err(InvalidCurrency)
    else Ok(Money(amount, code))
  }

  /** The same value in another currency, rounded to the nearest unit. */
  function Convert(m: Money, code: string): (r: Result)
    ensures r.Ok? <==> code in ValidCurrency
    ensures r.Err? ==> r.error == InvalidCurrency
    ensures r.Ok? ==> r.value.currency == code
                      && NearestTiesAway(m.amount as real * Rate(m.currency, code), r.value.amount)
  {
    if code !in ValidCurrency then Err(InvalidCurrency)
    else if m.currency in ToUSD && code in FromUSD then
      var usd := m.amount as real * ToUSD[m.currency];
      var converted := usd * FromUSD[code];
      NewMoney(Round(converted), code)
    else Err(MissingConversionRate)
  }

  /** The sum, expressed in the currency of the argument `b`. */
  function Add(a: Money, b: Money): (r: Money)
    ensures r.currency == b.currency
    ensures Convert(a, b.currency).Ok? && r.amount == Convert(a, b.currency).value.amount + b.amount
    ensures var exact := a.amount as real * Rate(a.currency, b.currency) + b.amount as real;
            exact - 0.5 <= r.amount as real <= exact + 0.5
  {
    var convertedSelf := Convert(a, b.currency).value;
    var total := convertedSelf.amount + b.amount;
    Money(total, b.currency)
  }

  /** The difference, expressed in the currency of the receiver `a`. */
  function Subtract(a: Money, b: Money): (r: Money)
    ensures r.currency == a.currency
    ensures Convert(b, a.currency).Ok? && r.amount == a.amount - Convert(b, a.currency).value.amount
    ensures var exact := a.amount as real - b.amount as real * Rate(b.currency, a.currency);
            exact - 0.5 <= r.amount as real <= exact + 0.5
  {
    var converted := Convert(b, a.currency).value;
    var total := a.amount - converted.amount;
    Money(total, a.currency)
  }

  /** Converting into the currency a Money already has returns it unchanged. */
  lemma {:induction false} ConvertToOwnCurrency(m: Money)
    ensures Convert(m, m.currency) == Ok(m)
  {
    RateToSelfIsOne(m.currency);
    assert m.amount as real * Rate(m.currency, m.currency) == m.amount as real;
    NearestTiesAwayUnique(m.amount as real, Convert(m, m.currency).value.amount, m.amount);
  }

  /** A conversion whose exact value is a whole number needs no rounding. */
  lemma {:induction false} ConvertExact(m: Money, code: Currency, k: int)
    requires m.amount as real * Rate(m.currency, code) == k as real
    ensures Convert(m, code) == Ok(Money(k, code))
  {
    NearestTiesAwayUnique(k as real, Convert(m, code).value.amount, k);
  }

  /** When a conversion lands exactly on a whole number, converting back restores the original. */
  lemma {:induction false} ExactConversionRoundTrips(m: Money, code: Currency, k: int)
    requires m.amount as real * Rate(m.currency, code) == k as real
    ensures Convert(m, code) == Ok(Money(k, code))
    ensures Convert(Money(k, code), m.currency) == Ok(m)
  {
    ConvertExact(m, code, k);
    var x, y := Rate(m.currency, code), Rate(code, m.currency);
    RatesAreReciprocal(m.currency, code);
    assert k as real * y == m.amount as real * (x * y);
    ConvertExact(Money(k, code), m.currency, m.amount);
  }

  /** Between Money of one currency, add and subtract are plain integer arithmetic. */
  lemma {:induction false} SameCurrencyArithmetic(a: Money, b: Money)
    requires a.currency == b.currency
    ensures Add(a, b) == Money(a.amount + b.amount, a.currency)
    ensures Subtract(a, b) == Money(a.amount - b.amount, a.currency)
  {
    ConvertToOwnCurrency(a);
    ConvertToOwnCurrency(b);
  }

  /** Subtracting a Money from itself leaves zero in its currency. */
  lemma {:induction false} SubtractSelfIsZero(a: Money)
    ensures Subtract(a, a) == Money(0, a.currency)
  {
    SameCurrencyArithmetic(a, a);
  }

  /** Worked values: 100 USD is 50 GBP, and back; 10 USD plus 5 USD is 15 USD. */
  lemma {:induction false} DollarsAndPounds()
    ensures Convert(Money(100, "USD"), "GBP") == Ok(Money(50, "GBP"))
    ensures Convert(Money(50, "GBP"), "USD") == Ok(Money(100, "USD"))
    ensures Add(Money(10, "USD"), Money(5, "USD")) == Money(15, "USD")
  {
    NearestTiesAwayUnique(50.0, Convert(Money(100, "USD"), "GBP").value.amount, 50);
    NearestTiesAwayUnique(100.0, Convert(Money(50, "GBP"), "USD").value.amount, 100);
    SameCurrencyArithmetic(Money(10, "USD"), Money(5, "USD"));
  }

  /** A half unit rounds away from zero, so a conversion round trip can drift: 1 USD is 1 GBP, which is 2 USD. */
  lemma {:induction false} HalvesRoundAwayFromZero()
    ensures Convert(Money(1, "USD"), "GBP") == Ok(Money(1, "GBP"))
    ensures Convert(Money(-1, "USD"), "GBP") == Ok(Money(-1, "GBP"))
    ensures Convert(Money(1, "GBP"), "USD") == Ok(Money(2, "USD"))
  {
    NearestTiesAwayUnique(0.5, Convert(Money(1, "USD"), "GBP").value.amount, 1);
    NearestTiesAwayUnique(-0.5, Convert(Money(-1, "USD"), "GBP").value.amount, -1);
    ConvertExact(Money(1, "GBP"), "USD", 2);
  }
}
