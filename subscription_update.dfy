/** `Subscription.findByIdAndUpdate(id, body, { runValidators: true })`:
    the paths in the body are cast, set and validated, the other paths keep
    their stored values, and the `pre('save')` hook does not run. */
module SubscriptionUpdate {
  import opened Wrappers
  import opened Text
  import opened Api
  import opened SubscriptionModel

  /** The paths an owner may change. */
  const AllowedUpdates: set<string> :=
    {"name", "price", "currency", "category", "paymentMethod", "status", "frequency"}

  /** Every key of the body is an allowed path. */
  predicate OnlyAllowed(body: map<string, FieldValue>)
  {
    forall k :: k in body ==> k in AllowedUpdates
  }

  /** The new values an update body sets, each `None` when the body leaves
      the path out. */
  datatype Changes = Changes(
    name: Option<string>,
    price: Option<int>,
    currency: Option<Currency>,
    category: Option<Category>,
    paymentMethod: Option<string>,
    status: Option<Status>,
    frequency: Option<Frequency>)

  /** Every path the body gives passes its own check. */
  predicate Accepted(p: BodyPaths)
  {
    && (p.name.Some? ==> CheckName(p.name.value).Ok?)
    && (p.price.Some? ==> CheckPrice(p.price.value).Ok?)
    && (p.currency.Some? ==> CheckCurrency(p.currency.value).Ok?)
    && (p.category.Some? ==> CheckCategory(p.category.value).Ok?)
    && (p.paymentMethod.Some? ==> CheckPaymentMethod(p.paymentMethod.value).Ok?)
    && (p.status.Some? ==> CheckStatus(p.status.value).Ok?)
    && (p.frequency.Some? ==> CheckFrequency(p.frequency.value).Ok?)
  }

  /** Casting, setters and the update validators of the paths in the body,
      in schema order; the first failing path is reported. */
  function CheckChanges(p: BodyPaths): (r: Result<Changes, ApiError>)
    ensures r.Ok? <==> Accepted(p)
    ensures r.Ok? ==> (r.value.name.Some? <==> p.name.Some?) && (r.value.price.Some? <==> p.price.Some?)
    ensures r.Ok? ==> (r.value.currency.Some? <==> p.currency.Some?) && (r.value.category.Some? <==> p.category.Some?)
    ensures r.Ok? ==> (r.value.paymentMethod.Some? <==> p.paymentMethod.Some?) && (r.value.status.Some? <==> p.status.Some?)
    ensures r.Ok? ==> (r.value.frequency.Some? <==> p.frequency.Some?)
    ensures r.Ok? && p.name.Some? ==>
              r.value.name == Some(Trim(CastString(p.name.value))) && NameLengthOk(r.value.name.value)
    ensures r.Ok? && p.price.Some? ==> CastNumber(p.price.value) == r.value.price && r.value.price.value >= 0
    ensures r.Ok? && p.currency.Some? ==> CurrencyName(r.value.currency.value) == CastString(p.currency.value)
    ensures r.Ok? && p.category.Some? ==> CategoryName(r.value.category.value) == CastString(p.category.value)
    ensures r.Ok? && p.paymentMethod.Some? ==>
              r.value.paymentMethod == Some(Trim(CastString(p.paymentMethod.value))) && Nonblank(r.value.paymentMethod.value)
    ensures r.Ok? && p.status.Some? ==> StatusName(r.value.status.value) == CastString(p.status.value)
    ensures r.Ok? && p.frequency.Some? ==> FrequencyName(r.value.frequency.value) == CastString(p.frequency.value)
    ensures p.name.Some? && CheckName(p.name.value).Err? ==> r == Err(Invalid("name"))
  {
    var name :- Lift(p.name, CheckName);
    var price :- Lift(p.price, CheckPrice);
    var currency :- Lift(p.currency, CheckCurrency);
    var category :- Lift(p.category, CheckCategory);
    var paymentMethod :- Lift(p.paymentMethod, CheckPaymentMethod);
    var status :- Lift(p.status, CheckStatus);
    var frequency :- Lift(p.frequency, CheckFrequency);
    Ok(Changes(name, price, currency, category, paymentMethod, status, frequency))
  }

  function Or<T>(o: Option<T>, default: T): T
  {
    if o.Some? then o.value else default
  }

  /** `$set` of the changed paths. The dates, the owner and the cancellation
      time are never touched: a new frequency does not move the renewal
      date, and a status set here is not checked against it. */
  function Merge(s: Subscription, c: Changes): (r: Subscription)
    ensures r.startDate == s.startDate && r.renewDate == s.renewDate
    ensures r.user == s.user && r.cancelledAt == s.cancelledAt
    ensures r.name == (if c.name.Some? then c.name.value else s.name)
    ensures r.price == (if c.price.Some? then c.price.value else s.price)
    ensures r.currency == (if c.currency.Some? then c.currency.value else s.currency)
    ensures r.category == (if c.category.Some? then c.category else s.category)
    ensures r.paymentMethod == (if c.paymentMethod.Some? then c.paymentMethod.value else s.paymentMethod)
    ensures r.status == (if c.status.Some? then c.status.value else s.status)
    ensures r.frequency == (if c.frequency.Some? then c.frequency.value else s.frequency)
  {
    s.(name := Or(c.name, s.name), price := Or(c.price, s.price), currency := Or(c.currency, s.currency),
       category := if c.category.Some? then c.category else s.category,
       paymentMethod := Or(c.paymentMethod, s.paymentMethod), status := Or(c.status, s.status),
       frequency := Or(c.frequency, s.frequency))
  }

  /** The stored document after the update, or the validation error that
      leaves it unchanged. */
  function Patch(s: Subscription, p: BodyPaths): (r: Result<Subscription, ApiError>)
    ensures r.Ok? <==> Accepted(p)
    ensures r.Ok? ==> r.value.startDate == s.startDate && r.value.renewDate == s.renewDate
    ensures r.Ok? ==> r.value.user == s.user && r.value.cancelledAt == s.cancelledAt
    ensures r.Ok? && FieldsValid(s) ==> FieldsValid(r.value)
    ensures r.Ok? && Persisted(s) ==> Persisted(r.value)
  {
    var c :- CheckChanges(p);
    Ok(Merge(s, c))
  }

  /** The paths of an empty body. */
  function NoPaths(): BodyPaths
  {
    BodyPaths(None, None, None, None, None, None, None, None, None, None)
  }

  /** An empty update changes nothing. */
  lemma PatchNothing(s: Subscription)
    ensures Patch(s, NoPaths()) == Ok(s)
  {
  }

  /** Applying the same update twice is the same as applying it once. */
  lemma PatchIdempotent(s: Subscription, p: BodyPaths)
    requires Patch(s, p).Ok?
    ensures Patch(Patch(s, p).value, p) == Patch(s, p)
  {
    var c := CheckChanges(p).value;
    MergeIdempotent(s, c);
  }

  lemma MergeIdempotent(s: Subscription, c: Changes)
    ensures Merge(Merge(s, c), c) == Merge(s, c)
  {
  }

  /** A path the body sets takes the body's value, cast and checked,
      whatever was stored. */
  lemma PatchSetsGivenPaths(s: Subscription, p: BodyPaths)
    requires Patch(s, p).Ok?
    ensures p.name.Some? ==> Patch(s, p).value.name == Trim(CastString(p.name.value))
    ensures p.price.Some? ==> CastNumber(p.price.value) == Some(Patch(s, p).value.price)
    ensures p.currency.Some? ==> CurrencyName(Patch(s, p).value.currency) == CastString(p.currency.value)
    ensures p.category.Some? ==>
              Patch(s, p).value.category.Some? && CategoryName(Patch(s, p).value.category.value) == CastString(p.category.value)
    ensures p.paymentMethod.Some? ==> Patch(s, p).value.paymentMethod == Trim(CastString(p.paymentMethod.value))
    ensures p.status.Some? ==> StatusName(Patch(s, p).value.status) == CastString(p.status.value)
    ensures p.frequency.Some? ==> FrequencyName(Patch(s, p).value.frequency) == CastString(p.frequency.value)
  {
  }

  /** A path the body leaves out keeps its stored value. */
  lemma PatchKeepsAbsentPaths(s: Subscription, p: BodyPaths)
    requires Patch(s, p).Ok?
    ensures p.name.None? ==> Patch(s, p).value.name == s.name
    ensures p.price.None? ==> Patch(s, p).value.price == s.price
    ensures p.currency.None? ==> Patch(s, p).value.currency == s.currency
    ensures p.category.None? ==> Patch(s, p).value.category == s.category
    ensures p.paymentMethod.None? ==> Patch(s, p).value.paymentMethod == s.paymentMethod
    ensures p.status.None? ==> Patch(s, p).value.status == s.status
    ensures p.frequency.None? ==> Patch(s, p).value.frequency == s.frequency
  {
  }
}
