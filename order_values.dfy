/**
 * Value objects of the order domain: OrderId, Money, ShippingAddress and OrderStatus
 * (src/domain/orders/value_objects.py). They are frozen dataclasses whose
 * `__post_init__` validates; here each constructor is a function returning
 * either the value or the `ValueError` it raises.
 *
 * Amounts are integers in hundredths of the currency unit, the precision of the
 * price column that stores them; `Decimal` arithmetic on such amounts is exact,
 * and so is integer arithmetic.
 */
module OrderValues {
  import opened Common
  import opened Text
  import opened Events

  /** `OrderId(value)`: anything but a UUID object is rejected. */
  function NewOrderId(v: PyValue): (r: Result<Uuid>)
    ensures r.Ok? <==> v.PyUuid?
    ensures r.Ok? ==> r.value == v.u
    ensures r.Err? ==> r.error == ValueError(NotAUuid)
  {
    if v.PyUuid? then Ok(v.u) else Err(ValueError(NotAUuid))
  }

  datatype Money = Money(amount: int, currency: string)

  /** What `Money.__post_init__` accepts. Only the length of the currency is checked. */
  predicate ValidMoney(m: Money) {
    m.amount >= 0 && |m.currency| == 3
  }

  /** `Money(amount, currency)`: the amount is checked first, then the currency. */
  function NewMoney(amount: int, currency: string): (r: Result<Money>)
    ensures r.Ok? <==> amount >= 0 && |currency| == 3
    ensures r.Ok? ==> r.value == Money(amount, currency) && ValidMoney(r.value)
    ensures amount < 0 ==> r == Err(ValueError(NegativeAmount))
    ensures amount >= 0 && |currency| != 3 ==> r == Err(ValueError(BadCurrency))
  {
    if amount < 0 then Err(ValueError(NegativeAmount))
    else if currency == [] || |currency| != 3 then Err(ValueError(BadCurrency))
    else Ok(Money(amount, currency))
  }

  /** `a + b`: defined only between equal currencies; the sum is revalidated. */
  function Add(a: Money, b: Money): (r: Result<Money>)
    ensures a.currency != b.currency ==> r == Err(ValueError(CurrencyMismatch))
    ensures ValidMoney(a) && ValidMoney(b) ==>
              (r.Ok? <==> a.currency == b.currency)
    ensures r.Ok? ==> r.value == Money(a.amount + b.amount, a.currency) && ValidMoney(r.value)
  {
    if a.currency != b.currency then Err(ValueError(CurrencyMismatch))
    else NewMoney(a.amount + b.amount, a.currency)
  }

  /** `m * k`: same currency, amount scaled, revalidated. */
  function Mul(m: Money, k: int): (r: Result<Money>)
    ensures r.Ok? <==> m.amount * k >= 0 && |m.currency| == 3
    ensures r.Ok? ==> r.value == Money(m.amount * k, m.currency)
  {
    NewMoney(m.amount * k, m.currency)
  }

  /** A non-negative multiplier never makes a valid amount fail. */
  lemma MulNonNegative(m: Money, k: int)
    requires ValidMoney(m) && k >= 0
    ensures Mul(m, k) == Ok(Money(m.amount * k, m.currency))
  {
    assert m.amount * k >= 0;
  }

  /** A negative multiplier on a positive amount fails revalidation. */
  lemma MulNegativeFails(m: Money, k: int)
    requires m.amount > 0 && k < 0
    ensures Mul(m, k) == Err(ValueError(NegativeAmount))
  {
    assert m.amount * k < 0;
  }

  /** Zero of the same currency is a two-sided identity of `+`; the order total
      starts from it. */
  lemma AddZeroIdentity(x: Money)
    requires ValidMoney(x)
    ensures Add(Money(0, x.currency), x) == Ok(x)
    ensures Add(x, Money(0, x.currency)) == Ok(x)
  {
  }

  // ---------------------------------------------------------------------

  datatype ShippingAddress = ShippingAddress(
    street: string, city: string, state: string, zipCode: string, country: string)

  /** `ShippingAddress(...)`: street, city and country must not be blank, checked
      in that order; state and zip code are not checked at all. */
  function NewShippingAddress(street: string, city: string, state: string,
                              zipCode: string, country: string): (r: Result<ShippingAddress>)
    ensures r.Ok? <==> !IsBlank(street) && !IsBlank(city) && !IsBlank(country)
    ensures r.Ok? ==> r.value == ShippingAddress(street, city, state, zipCode, country)
    ensures IsBlank(street) ==> r == Err(ValueError(EmptyStreet))
    ensures !IsBlank(street) && IsBlank(city) ==> r == Err(ValueError(EmptyCity))
    ensures !IsBlank(street) && !IsBlank(city) && IsBlank(country) ==> r == Err(ValueError(EmptyCountry))
  {
    StripEmptyIffBlank(street);
    StripEmptyIffBlank(city);
    StripEmptyIffBlank(country);
    if street == [] || Strip(street) == [] then Err(ValueError(EmptyStreet))
    else if city == [] || Strip(city) == [] then Err(ValueError(EmptyCity))
    else if country == [] || Strip(country) == [] then Err(ValueError(EmptyCountry))
    else Ok(ShippingAddress(street, city, state, zipCode, country))
  }

  // ---------------------------------------------------------------------

  datatype OrderStatus = Pending | Confirmed | Processing | Shipped | Delivered | Cancelled

  /** `status.value`. */
  function StatusValue(s: OrderStatus): string {
    match s
    case Pending => "pending"
    case Confirmed => "confirmed"
    case Processing => "processing"
    case Shipped => "shipped"
    case Delivered => "delivered"
    case Cancelled => "cancelled"
  }

  /** `OrderStatus(v)`: exactly six strings name a status. */
  function ParseStatus(v: string): (r: Option<OrderStatus>)
    ensures r.Some? <==> v in {"pending", "confirmed", "processing", "shipped", "delivered", "cancelled"}
    ensures r.Some? ==> StatusValue(r.value) == v
  {
    if v == "pending" then Some(Pending)
    else if v == "confirmed" then Some(Confirmed)
    else if v == "processing" then Some(Processing)
    else if v == "shipped" then Some(Shipped)
    else if v == "delivered" then Some(Delivered)
    else if v == "cancelled" then Some(Cancelled)
    else None
  }

  /** Every status reads back from its value, so distinct statuses have distinct values. */
  lemma StatusRoundTrip(s: OrderStatus)
    ensures ParseStatus(StatusValue(s)) == Some(s)
  {
  }
}
