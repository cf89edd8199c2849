/** Request bodies and the casting that creation applies to them: the
    round trip from a subscription to a body and back. */
module SubscriptionBody {
  import opened Wrappers
  import opened Text
  import opened Api
  import UserModel
  import opened SubscriptionModel

  /** A request body that carries every path of `s` (an absent optional path
      is left out of the body). */
  function ToBody(s: Subscription): map<string, FieldValue>
  {
    var required := map[
      "name" := Text(s.name), "price" := Number(s.price), "currency" := Text(CurrencyName(s.currency)),
      "paymentMethod" := Text(s.paymentMethod), "status" := Text(StatusName(s.status)),
      "startDate" := Number(s.startDate), "frequency" := Text(FrequencyName(s.frequency))];
    var withCategory := if s.category.Some? then required["category" := Text(CategoryName(s.category.value))]
                        else required;
    var withRenew := if s.renewDate.Some? then withCategory["renewDate" := Number(s.renewDate.value)]
                     else withCategory;
    if s.cancelledAt.Some? then withRenew["cancelledAt" := Number(s.cancelledAt.value)] else withRenew
  }

  /** Every enum value is accepted back from its name. */
  lemma EnumNamesParse(c: Currency, g: Category, st: Status, f: Frequency)
    ensures ParseCurrency(CurrencyName(c)) == Some(c)
    ensures ParseCategory(CategoryName(g)) == Some(g)
    ensures ParseStatus(StatusName(st)) == Some(st)
    ensures ParseFrequency(FrequencyName(f)) == Some(f)
  {
  }

  /** Creation accepts exactly the documents the schema admits: an admissible
      subscription, sent back as a body by its owner, is created unchanged. */
  lemma DraftOfBody(s: Subscription, now: int, parseDate: DateParser)
    requires Admissible(s, now)
    ensures Draft(ToBody(s), s.user, now, parseDate) == Ok(s)
  {
    PathsOfBody(s);
    NameCheckOfTrimmed(s.name);
    PaymentMethodCheckOfTrimmed(s.paymentMethod);
    AssembleOfFields(s, now, parseDate);
  }

  /** The body paths of `s`, as `PathsOf(ToBody(s))` reads them. */
  function FieldsOf(s: Subscription): BodyPaths
  {
    BodyPaths(
      Some(Text(s.name)), Some(Number(s.price)), Some(Text(CurrencyName(s.currency))),
      if s.category.Some? then Some(Text(CategoryName(s.category.value))) else None,
      Some(Text(s.paymentMethod)), Some(Text(StatusName(s.status))), Some(Number(s.startDate)),
      if s.renewDate.Some? then Some(Number(s.renewDate.value)) else None,
      Some(Text(FrequencyName(s.frequency))),
      if s.cancelledAt.Some? then Some(Number(s.cancelledAt.value)) else None)
  }

  lemma PathsOfBody(s: Subscription)
    ensures PathsOf(ToBody(s)) == FieldsOf(s)
  {
  }

  lemma AssembleOfFields(s: Subscription, now: int, parseDate: DateParser)
    requires CheckName(Text(s.name)) == Ok(s.name)
    requires CheckPaymentMethod(Text(s.paymentMethod)) == Ok(s.paymentMethod)
    requires s.price >= 0 && StartDateValid(s.startDate, now) && RenewDateValid(s.renewDate, s.startDate)
    ensures Assemble(FieldsOf(s), s.user, now, parseDate) == Ok(s)
  {
    PriceCheckOfNumber(s.price);
    IdentityOfFields(s);
    ScheduleOfFields(s, now, parseDate);
    AssembleOfStages(FieldsOf(s), Identity(s.name, s.price, s.currency, s.category, s.paymentMethod, s.status),
                     Schedule(s.startDate, s.renewDate, s.frequency, s.cancelledAt), s.user, now, parseDate);
  }

  lemma IdentityOfFields(s: Subscription)
    requires CheckName(Text(s.name)) == Ok(s.name)
    requires CheckPaymentMethod(Text(s.paymentMethod)) == Ok(s.paymentMethod)
    requires CheckPrice(Number(s.price)) == Ok(s.price)
    ensures IdentityOf(FieldsOf(s))
            == Ok(Identity(s.name, s.price, s.currency, s.category, s.paymentMethod, s.status))
  {
    EnumNamesParse(s.currency, if s.category.Some? then s.category.value else Others, s.status, Daily);
  }

  lemma ScheduleOfFields(s: Subscription, now: int, parseDate: DateParser)
    requires StartDateValid(s.startDate, now) && RenewDateValid(s.renewDate, s.startDate)
    ensures ScheduleOf(FieldsOf(s), now, parseDate) == Ok(Schedule(s.startDate, s.renewDate, s.frequency, s.cancelledAt))
  {
    EnumNamesParse(NAIRA, Others, Active, s.frequency);
  }

  lemma AssembleOfStages(p: BodyPaths, id: Identity, sc: Schedule, owner: UserModel.UserId, now: int, parseDate: DateParser)
    requires IdentityOf(p) == Ok(id) && ScheduleOf(p, now, parseDate) == Ok(sc)
    ensures Assemble(p, owner, now, parseDate)
            == Ok(Subscription(id.name, id.price, id.currency, id.category, id.paymentMethod, id.status,
                               sc.startDate, sc.renewDate, sc.frequency, owner, sc.cancelledAt))
  {
  }

  lemma PriceCheckOfNumber(price: int)
    requires price >= 0
    ensures CheckPrice(Number(price)) == Ok(price)
  {
  }

  lemma NameCheckOfTrimmed(name: string)
    requires IsTrimmed(name) && NameLengthOk(name)
    ensures CheckName(Text(name)) == Ok(name)
  {
    TrimmedIsFixed(name);
  }

  lemma PaymentMethodCheckOfTrimmed(pm: string)
    requires IsTrimmed(pm) && pm != []
    ensures CheckPaymentMethod(Text(pm)) == Ok(pm)
  {
    TrimmedIsFixed(pm);
  }

  /** The body's own `user` key never decides anything: the owner is the
      caller whatever the body says. */
  lemma DraftIgnoresBodyUser(body: map<string, FieldValue>, v: FieldValue, caller: UserModel.UserId, now: int,
                              parseDate: DateParser)
    ensures Draft(body["user" := v], caller, now, parseDate) == Draft(body, caller, now, parseDate)
  {
    assert PathsOf(body["user" := v]) == PathsOf(body);
  }
}
