/** The Subscription schema: its enums, how a request body is cast into a
    document, the path validators, and the `pre('save')` hook that derives
    the renewal date and forces the `expired` status. */
module SubscriptionModel {
  import opened Wrappers
  import opened Text
  import opened Time
  import opened Api
  import opened UserModel

  type SubId = nat

  datatype Currency = NAIRA | USD | EUR | GBP
  datatype Category = Sports | Business | Finance | Political | Others
  datatype Status = Active | Inactive | Expired
  datatype Frequency = Daily | Weekly | Monthly | Yearly

  function CurrencyName(c: Currency): string
  {
    match c
    case NAIRA => "NAIRA"
    case USD => "USD"
    case EUR => "EUR"
    case GBP => "GBP"
  }

  /** The currency enum check. */
  function ParseCurrency(s: string): (r: Option<Currency>)
    ensures r.Some? ==> CurrencyName(r.value) == s
    ensures r.None? ==> forall c :: CurrencyName(c) != s
  {
    if s == "NAIRA" then Some(NAIRA)
    else if s == "USD" then Some(USD)
    else if s == "EUR" then Some(EUR)
    else if s == "GBP" then Some(GBP)
    else None
  }

  function CategoryName(c: Category): string
  {
    match c
    case Sports => "sports"
    case Business => "business"
    case Finance => "finance"
    case Political => "political"
    case Others => "others"
  }

  /** The category enum check. */
  function ParseCategory(s: string): (r: Option<Category>)
    ensures r.Some? ==> CategoryName(r.value) == s
    ensures r.None? ==> forall c :: CategoryName(c) != s
  {
    if s == "sports" then Some(Sports)
    else if s == "business" then Some(Business)
    else if s == "finance" then Some(Finance)
    else if s == "political" then Some(Political)
    else if s == "others" then Some(Others)
    else None
  }

  function StatusName(st: Status): string
  {
    match st
    case Active => "active"
    case Inactive => "inactive"
    case Expired => "expired"
  }

  /** The status enum check. */
  function ParseStatus(s: string): (r: Option<Status>)
    ensures r.Some? ==> StatusName(r.value) == s
    ensures r.None? ==> forall st :: StatusName(st) != s
  {
    if s == "active" then Some(Active)
    else if s == "inactive" then Some(Inactive)
    else if s == "expired" then Some(Expired)
    else None
  }

  function FrequencyName(f: Frequency): string
  {
    match f
    case Daily => "daily"
    case Weekly => "weekly"
    case Monthly => "monthly"
    case Yearly => "yearly"
  }

  /** The frequency enum check. */
  function ParseFrequency(s: string): (r: Option<Frequency>)
    ensures r.Some? ==> FrequencyName(r.value) == s
    ensures r.None? ==> forall f :: FrequencyName(f) != s
  {
    if s == "daily" then Some(Daily)
    else if s == "weekly" then Some(Weekly)
    else if s == "monthly" then Some(Monthly)
    else if s == "yearly" then Some(Yearly)
    else None
  }

  /** The `renewPeriods` table of the save hook, in days. */
  function RenewPeriodDays(f: Frequency): nat
  {
    match f
    case Daily => 1
    case Weekly => 7
    case Monthly => 30
    case Yearly => 365
  }

  /** A stored subscription document. Optional paths are `None` when absent
      or `null`. */
  datatype Subscription = Subscription(
    name: string,
    price: int,
    currency: Currency,
    category: Option<Category>,
    paymentMethod: string,
    status: Status,
    startDate: int,
    renewDate: Option<int>,
    frequency: Frequency,
    user: UserId,
    cancelledAt: Option<int>)

  /** The owner fields `populate("user", "name email")` brings in. */
  datatype Contact = Contact(name: string, email: string)

  /** A subscription with its `user` path populated; `owner` is None when the
      referenced user no longer exists (populate yields `null`). */
  datatype Populated = Populated(sub: Subscription, owner: Option<Contact>)

  const MinNameLength: nat := 2
  const MaxNameLength: nat := 50

  /** The name path's minlength and maxlength validators. */
  predicate NameLengthOk(name: string)
  {
    MinNameLength <= |name| <= MaxNameLength
  }

  /** The paymentMethod path's `required` validator: the empty string is
      refused. */
  predicate Nonblank(s: string)
  {
    s != []
  }

  /** The startDate validator: the start lies in the past (or now). */
  predicate StartDateValid(startDate: int, now: int)
  {
    startDate <= now
  }

  /** The renewDate validator: absent, or strictly after the start. */
  predicate RenewDateValid(renewDate: Option<int>, startDate: int)
  {
    renewDate.None? || renewDate.value > startDate
  }

  /** The validators that do not depend on the clock. */
  predicate FieldsValid(s: Subscription)
  {
    && IsTrimmed(s.name) && NameLengthOk(s.name)
    && s.price >= 0
    && IsTrimmed(s.paymentMethod) && s.paymentMethod != []
    && RenewDateValid(s.renewDate, s.startDate)
  }

  /** Every validator of the schema, checked at time `now`. */
  predicate Admissible(s: Subscription, now: int)
  {
    FieldsValid(s) && StartDateValid(s.startDate, now)
  }

  /** What holds of every document once it has been saved. */
  predicate Persisted(s: Subscription)
  {
    FieldsValid(s) && s.renewDate.Some?
  }

  // Casting a body value to the type of a path.

  /** A String path takes strings as given and numbers as their decimal
      text. */
  function CastString(v: FieldValue): string
  {
    match v
    case Text(s) => s
    case Number(n) => IntToString(n)
  }

  /** A Number path takes numbers, and strings of decimal digits. */
  function CastNumber(v: FieldValue): Option<int>
  {
    match v
    case Number(n) => Some(n)
    case Text(s) => if s != [] && AllDigits(s) then Some(DigitsValue(s)) else None
  }

  /** How a Date path reads a non-empty string: the milliseconds of the
      instant it names, or None when JavaScript's `Date` parsing yields an
      invalid date. */
  type DateParser = string -> Option<int>

  /** What a Date path makes of a body value: an instant, `null`, or a cast
      error. */
  datatype DateCast = Instant(ms: int) | NullDate | BadDate
  {
    /** The value the path holds afterwards: the instant, or nothing. */
    function Stored(): Option<int>
    {
      if Instant? then Some(ms) else None
    }
  }

  /** A Date path casts the empty string to `null`, takes millisecond
      numbers as they are, and reads every other string with the date
      parser. */
  function CastDate(v: FieldValue, parseDate: DateParser): DateCast
  {
    match v
    case Number(n) => Instant(n)
    case Text(s) =>
      if s == "" then NullDate
      else match parseDate(s)
        case Some(t) => Instant(t)
        case None => BadDate
  }

  // One present path: cast, apply its setters, run its validators.

  function CheckName(v: FieldValue): (r: Result<string, ApiError>)
    ensures r.Ok? <==> NameLengthOk(Trim(CastString(v)))
    ensures r.Ok? ==> r.value == Trim(CastString(v))
  {
    var name := Trim(CastString(v));
    if NameLengthOk(name) then Ok(name) else Err(Invalid("name"))
  }

  function CheckPrice(v: FieldValue): (r: Result<int, ApiError>)
    ensures r.Ok? <==> CastNumber(v).Some? && CastNumber(v).value >= 0
    ensures r.Ok? ==> r.value >= 0 && CastNumber(v) == Some(r.value)
    ensures r.Err? ==> r == Err(Invalid("price"))
  {
    match CastNumber(v)
    case Some(n) => if n >= 0 then Ok(n) else Err(Invalid("price"))
    case None => Err(Invalid("price"))
  }

  function CheckCurrency(v: FieldValue): (r: Result<Currency, ApiError>)
    ensures r.Ok? ==> CurrencyName(r.value) == CastString(v)
    ensures r.Err? ==> r == Err(Invalid("currency")) && forall x :: CurrencyName(x) != CastString(v)
  {
    match ParseCurrency(CastString(v))
    case Some(c) => Ok(c)
    case None => Err(Invalid("currency"))
  }

  function CheckCategory(v: FieldValue): (r: Result<Category, ApiError>)
    ensures r.Ok? ==> CategoryName(r.value) == CastString(v)
    ensures r.Err? ==> r == Err(Invalid("category")) && forall x :: CategoryName(x) != CastString(v)
  {
    match ParseCategory(CastString(v))
    case Some(c) => Ok(c)
    case None => Err(Invalid("category"))
  }

  /** An optional path: absent stays absent, a present value is checked. */
  function Lift<T>(v: Option<FieldValue>, check: FieldValue -> Result<T, ApiError>): (r: Result<Option<T>, ApiError>)
    ensures v.None? ==> r == Ok(None)
    ensures v.Some? && r.Ok? ==> r.value.Some? && check(v.value) == Ok(r.value.value)
    ensures v.Some? && check(v.value).Err? ==> r == Err(check(v.value).error)
  {
    match v
    case None => Ok(None)
    case Some(x) =>
      var y :- check(x);
      Ok(Some(y))
  }

  function CheckPaymentMethod(v: FieldValue): (r: Result<string, ApiError>)
    ensures r.Ok? <==> Nonblank(Trim(CastString(v)))
    ensures r.Ok? ==> r.value == Trim(CastString(v))
  {
    var pm := Trim(CastString(v));
    if Nonblank(pm) then Ok(pm) else Err(Invalid("paymentMethod"))
  }

  function CheckStatus(v: FieldValue): (r: Result<Status, ApiError>)
    ensures r.Ok? ==> StatusName(r.value) == CastString(v)
    ensures r.Err? ==> r == Err(Invalid("status")) && forall x :: StatusName(x) != CastString(v)
  {
    match ParseStatus(CastString(v))
    case Some(st) => Ok(st)
    case None => Err(Invalid("status"))
  }

  function CheckFrequency(v: FieldValue): (r: Result<Frequency, ApiError>)
    ensures r.Ok? ==> FrequencyName(r.value) == CastString(v)
    ensures r.Err? ==> r == Err(Invalid("frequency")) && forall x :: FrequencyName(x) != CastString(v)
  {
    match ParseFrequency(CastString(v))
    case Some(f) => Ok(f)
    case None => Err(Invalid("frequency"))
  }

  /** A `null` start date fails the `required` validator. */
  function CheckStartDate(v: FieldValue, now: int, parseDate: DateParser): (r: Result<int, ApiError>)
    ensures r.Ok? <==> CastDate(v, parseDate).Instant? && StartDateValid(CastDate(v, parseDate).ms, now)
    ensures r.Ok? ==> CastDate(v, parseDate) == Instant(r.value)
    ensures r.Err? ==> r == Err(Invalid("startDate"))
  {
    match CastDate(v, parseDate)
    case Instant(t) => if StartDateValid(t, now) then Ok(t) else Err(Invalid("startDate"))
    case _ => Err(Invalid("startDate"))
  }

  /** A `null` renewal date passes the `!value` half of the validator and is
      stored as no renewal date. */
  function CheckRenewDate(v: FieldValue, startDate: int, parseDate: DateParser): (r: Result<Option<int>, ApiError>)
    ensures r.Ok? <==> CastDate(v, parseDate).NullDate?
                       || (CastDate(v, parseDate).Instant? && CastDate(v, parseDate).ms > startDate)
    ensures r.Ok? ==> RenewDateValid(r.value, startDate) && r.value == CastDate(v, parseDate).Stored()
    ensures r.Err? ==> r == Err(Invalid("renewDate"))
  {
    match CastDate(v, parseDate)
    case Instant(t) => if RenewDateValid(Some(t), startDate) then Ok(Some(t)) else Err(Invalid("renewDate"))
    case NullDate => Ok(None)
    case BadDate => Err(Invalid("renewDate"))
  }

  /** The cancellation time has no validator: anything that casts is kept,
      `null` as no cancellation. */
  function CheckCancelledAt(v: FieldValue, parseDate: DateParser): (r: Result<Option<int>, ApiError>)
    ensures r.Ok? <==> !CastDate(v, parseDate).BadDate?
    ensures r.Ok? ==> r.value == CastDate(v, parseDate).Stored()
    ensures r.Err? ==> r == Err(Invalid("cancelledAt"))
  {
    match CastDate(v, parseDate)
    case BadDate => Err(Invalid("cancelledAt"))
    case c => Ok(c.Stored())
  }

  /** The paths of a request body the schema reads, each `None` when the
      body leaves it out. */
  datatype BodyPaths = BodyPaths(
    name: Option<FieldValue>,
    price: Option<FieldValue>,
    currency: Option<FieldValue>,
    category: Option<FieldValue>,
    paymentMethod: Option<FieldValue>,
    status: Option<FieldValue>,
    startDate: Option<FieldValue>,
    renewDate: Option<FieldValue>,
    frequency: Option<FieldValue>,
    cancelledAt: Option<FieldValue>)

  function Lookup(body: map<string, FieldValue>, key: string): (r: Option<FieldValue>)
    ensures r.Some? <==> key in body
    ensures r.Some? ==> r.value == body[key]
  {
    if key in body then Some(body[key]) else None
  }

  function PathsOf(body: map<string, FieldValue>): BodyPaths
  {
    BodyPaths(Lookup(body, "name"), Lookup(body, "price"), Lookup(body, "currency"),
              Lookup(body, "category"), Lookup(body, "paymentMethod"), Lookup(body, "status"),
              Lookup(body, "startDate"), Lookup(body, "renewDate"), Lookup(body, "frequency"),
              Lookup(body, "cancelledAt"))
  }

  /** The descriptive paths of a new document. */
  datatype Identity = Identity(
    name: string, price: int, currency: Currency, category: Option<Category>,
    paymentMethod: string, status: Status)

  /** The date and period paths of a new document. */
  datatype Schedule = Schedule(
    startDate: int, renewDate: Option<int>, frequency: Frequency, cancelledAt: Option<int>)

  /** Every descriptive path passes its own check, and the required ones
      (name, price, payment method) are present. */
  predicate IdentityAccepted(p: BodyPaths)
  {
    && p.name.Some? && CheckName(p.name.value).Ok?
    && p.price.Some? && CheckPrice(p.price.value).Ok?
    && (p.currency.Some? ==> CheckCurrency(p.currency.value).Ok?)
    && (p.category.Some? ==> CheckCategory(p.category.value).Ok?)
    && p.paymentMethod.Some? && CheckPaymentMethod(p.paymentMethod.value).Ok?
    && (p.status.Some? ==> CheckStatus(p.status.value).Ok?)
  }

  /** The descriptive paths hold the cast and set values of the body, or
      the defaults where the body leaves an optional path out. */
  predicate IdentityCarries(p: BodyPaths, id: Identity)
  {
    && p.name.Some? && id.name == Trim(CastString(p.name.value))
    && p.price.Some? && CastNumber(p.price.value) == Some(id.price)
    && (if p.currency.Some? then CurrencyName(id.currency) == CastString(p.currency.value)
        else id.currency == NAIRA)
    && (if p.category.Some? then id.category.Some? && CategoryName(id.category.value) == CastString(p.category.value)
        else id.category == None)
    && p.paymentMethod.Some? && id.paymentMethod == Trim(CastString(p.paymentMethod.value))
    && (if p.status.Some? then StatusName(id.status) == CastString(p.status.value) else id.status == Active)
  }

  /** The descriptive paths, in schema order, with the defaults currency
      NAIRA, status active and no category. */
  function IdentityOf(p: BodyPaths): (r: Result<Identity, ApiError>)
    ensures r.Ok? <==> IdentityAccepted(p)
    ensures r.Ok? ==> IdentityCarries(p, r.value)
    ensures r.Ok? ==> IsTrimmed(r.value.name) && NameLengthOk(r.value.name)
    ensures r.Ok? ==> r.value.price >= 0 && IsTrimmed(r.value.paymentMethod) && r.value.paymentMethod != []
  {
    var name :- if p.name.Some? then CheckName(p.name.value) else Err(Invalid("name"));
    var price :- if p.price.Some? then CheckPrice(p.price.value) else Err(Invalid("price"));
    var currency :- if p.currency.Some? then CheckCurrency(p.currency.value) else Ok(NAIRA);
    var category :- if p.category.Some? then
                      (match CheckCategory(p.category.value)
                       case Ok(c) => Ok(Some(c))
                       case Err(e) => Err(e))
                    else Ok(None);
    var paymentMethod :- if p.paymentMethod.Some? then CheckPaymentMethod(p.paymentMethod.value)
                         else Err(Invalid("paymentMethod"));
    var status :- if p.status.Some? then CheckStatus(p.status.value) else Ok(Active);
    Ok(Identity(name, price, currency, category, paymentMethod, status))
  }

  /** Every date and period path passes its own check, and the required ones
      (start date, frequency) are present; the renewal date is checked
      against the cast start date. */
  predicate ScheduleAccepted(p: BodyPaths, now: int, parseDate: DateParser)
  {
    && p.startDate.Some? && CheckStartDate(p.startDate.value, now, parseDate).Ok?
    && (p.renewDate.Some? ==>
          CheckRenewDate(p.renewDate.value, CastDate(p.startDate.value, parseDate).ms, parseDate).Ok?)
    && p.frequency.Some? && CheckFrequency(p.frequency.value).Ok?
    && (p.cancelledAt.Some? ==> CheckCancelledAt(p.cancelledAt.value, parseDate).Ok?)
  }

  /** The date and period paths hold the cast values of the body; an absent
      or `null` date is none. */
  predicate ScheduleCarries(p: BodyPaths, sc: Schedule, parseDate: DateParser)
  {
    && p.startDate.Some? && CastDate(p.startDate.value, parseDate) == Instant(sc.startDate)
    && sc.renewDate == (if p.renewDate.Some? then CastDate(p.renewDate.value, parseDate).Stored() else None)
    && p.frequency.Some? && FrequencyName(sc.frequency) == CastString(p.frequency.value)
    && sc.cancelledAt == (if p.cancelledAt.Some? then CastDate(p.cancelledAt.value, parseDate).Stored() else None)
  }

  /** The date and period paths, in schema order; no renewal date and no
      cancellation by default. */
  function ScheduleOf(p: BodyPaths, now: int, parseDate: DateParser): (r: Result<Schedule, ApiError>)
    ensures r.Ok? <==> ScheduleAccepted(p, now, parseDate)
    ensures r.Ok? ==> ScheduleCarries(p, r.value, parseDate)
    ensures r.Ok? ==> StartDateValid(r.value.startDate, now)
    ensures r.Ok? ==> RenewDateValid(r.value.renewDate, r.value.startDate)
  {
    var startDate :- if p.startDate.Some? then CheckStartDate(p.startDate.value, now, parseDate)
                     else Err(Invalid("startDate"));
    var renewDate :- if p.renewDate.Some? then CheckRenewDate(p.renewDate.value, startDate, parseDate) else Ok(None);
    var frequency :- if p.frequency.Some? then CheckFrequency(p.frequency.value) else Err(Invalid("frequency"));
    var cancelledAt :- if p.cancelledAt.Some? then CheckCancelledAt(p.cancelledAt.value, parseDate) else Ok(None);
    Ok(Schedule(startDate, renewDate, frequency, cancelledAt))
  }

  /** A document holds the values the body's paths give it. */
  predicate Carries(p: BodyPaths, s: Subscription, parseDate: DateParser)
  {
    && IdentityCarries(p, Identity(s.name, s.price, s.currency, s.category, s.paymentMethod, s.status))
    && ScheduleCarries(p, Schedule(s.startDate, s.renewDate, s.frequency, s.cancelledAt), parseDate)
  }

  /** Casting, setters, defaults and validators over the paths of a body, in
      schema order; the first failing path is reported. */
  function Assemble(p: BodyPaths, owner: UserId, now: int, parseDate: DateParser): (r: Result<Subscription, ApiError>)
    ensures r.Ok? <==> IdentityAccepted(p) && ScheduleAccepted(p, now, parseDate)
    ensures r.Ok? ==> Admissible(r.value, now) && r.value.user == owner && Carries(p, r.value, parseDate)
  {
    var id :- IdentityOf(p);
    var sc :- ScheduleOf(p, now, parseDate);
    Ok(Subscription(id.name, id.price, id.currency, id.category, id.paymentMethod, id.status,
                    sc.startDate, sc.renewDate, sc.frequency, owner, sc.cancelledAt))
  }

  /** `Subscription.create({ ...body, user: caller })` up to the save hook.
      Mongoose validates before it runs `pre('save')` hooks, so an absent
      renewDate is valid here and is derived afterwards. The body's own
      `user` key is never read: the owner is the caller. */
  function Draft(body: map<string, FieldValue>, caller: UserId, now: int, parseDate: DateParser): (r: Result<Subscription, ApiError>)
    ensures r.Ok? <==> IdentityAccepted(PathsOf(body)) && ScheduleAccepted(PathsOf(body), now, parseDate)
    ensures r.Ok? ==> Admissible(r.value, now) && r.value.user == caller && Carries(PathsOf(body), r.value, parseDate)
    ensures r.Ok? && "currency" !in body ==> r.value.currency == NAIRA
    ensures r.Ok? && "status" !in body ==> r.value.status == Active
    ensures r.Ok? && "category" !in body ==> r.value.category == None
    ensures r.Ok? && "renewDate" !in body ==> r.value.renewDate == None
    ensures r.Ok? && "cancelledAt" !in body ==> r.value.cancelledAt == None
    ensures ("name" !in body || "price" !in body || "paymentMethod" !in body
             || "startDate" !in body || "frequency" !in body) ==> r.Err?
  {
    Assemble(PathsOf(body), caller, now, parseDate)
  }

  /** The empty string on a Date path is `null`: a start date `""` is
      refused as missing, a renewal date `""` is derived by the save hook,
      and a cancellation time `""` is stored as none. */
  lemma EmptyDateIsNull(body: map<string, FieldValue>, caller: UserId, now: int, parseDate: DateParser)
    ensures "startDate" in body && body["startDate"] == Text("") ==> Draft(body, caller, now, parseDate).Err?
    ensures Draft(body, caller, now, parseDate).Ok? && "renewDate" in body && body["renewDate"] == Text("") ==>
              var d := Draft(body, caller, now, parseDate).value;
              AfterSaveHook(d, now).renewDate == Some(DerivedRenewDate(d.startDate, d.frequency))
    ensures Draft(body, caller, now, parseDate).Ok? && "cancelledAt" in body && body["cancelledAt"] == Text("") ==>
              Draft(body, caller, now, parseDate).value.cancelledAt == None
  {
    var p := PathsOf(body);
    var r := Draft(body, caller, now, parseDate);
    if "startDate" in body && body["startDate"] == Text("") {
      assert CastDate(p.startDate.value, parseDate) == NullDate;
      assert !ScheduleAccepted(p, now, parseDate);
    }
    if r.Ok? && "renewDate" in body && body["renewDate"] == Text("") {
      assert CastDate(p.renewDate.value, parseDate) == NullDate;
      assert r.value.renewDate == None;
    }
    if r.Ok? && "cancelledAt" in body && body["cancelledAt"] == Text("") {
      assert CastDate(p.cancelledAt.value, parseDate) == NullDate;
    }
  }

  /** The renewal date the hook derives: `startDate` plus the frequency's
      period. */
  function DerivedRenewDate(startDate: int, f: Frequency): (r: int)
    ensures r > startDate && RenewDateValid(Some(r), startDate)
    ensures r - startDate == RenewPeriodDays(f) * DayMs
  {
    AddDays(startDate, RenewPeriodDays(f))
  }

  /** The document after the `pre('save')` hook: an absent renewDate is
      derived (a given one is kept), and a renewal before `now` forces the
      status `expired`; nothing else changes. */
  function AfterSaveHook(d: Subscription, now: int): (r: Subscription)
    ensures r.renewDate.Some?
    ensures d.renewDate.Some? ==> r.renewDate == d.renewDate
    ensures d.renewDate.None? ==> r.renewDate == Some(DerivedRenewDate(d.startDate, d.frequency))
    ensures r.status == if r.renewDate.value < now then Expired else d.status
    ensures r == d.(renewDate := r.renewDate, status := r.status)
    ensures FieldsValid(d) ==> Persisted(r)
  {
    var renew := if d.renewDate.Some? then d.renewDate.value else DerivedRenewDate(d.startDate, d.frequency);
    d.(renewDate := Some(renew), status := if renew < now then Expired else d.status)
  }

  /** A created document that passed validation satisfies everything a
      stored document does once its save hook has run. */
  lemma SavedDraftPersisted(body: map<string, FieldValue>, caller: UserId, now: int, parseDate: DateParser)
    requires Draft(body, caller, now, parseDate).Ok?
    ensures Persisted(AfterSaveHook(Draft(body, caller, now, parseDate).value, now))
  {
    var d := Draft(body, caller, now, parseDate).value;
    assert FieldsValid(d);
  }

  /** A Mongoose document of the schema, whose save hook updates its
      `renewDate` and `status` paths in place. */
  class SubscriptionDocument {
    var name: string
    var price: int
    var currency: Currency
    var category: Option<Category>
    var paymentMethod: string
    var status: Status
    var startDate: int
    var renewDate: Option<int>
    var frequency: Frequency
    var user: UserId
    var cancelledAt: Option<int>

    function Value(): Subscription
      reads this
    {
      Subscription(name, price, currency, category, paymentMethod, status, startDate, renewDate,
                   frequency, user, cancelledAt)
    }

    constructor (s: Subscription)
      ensures Value() == s
    {
      name, price, currency, category := s.name, s.price, s.currency, s.category;
      paymentMethod, status, startDate := s.paymentMethod, s.status, s.startDate;
      renewDate, frequency, user, cancelledAt := s.renewDate, s.frequency, s.user, s.cancelledAt;
    }

    /** `subscriptionSchema.pre('save', ...)`. The hook's `this.startDate &&
        this.frequency` test always holds here: both paths are required and
        validated before the hook runs. */
    method PreSave(now: int)
      modifies this
      ensures Value() == AfterSaveHook(old(Value()), now)
    {
      if renewDate.None? {
        renewDate := Some(AddDays(startDate, RenewPeriodDays(frequency)));
      }
      if renewDate.Some? && renewDate.value < now {
        status := Expired;
      }
    }
  }
}
