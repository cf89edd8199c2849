/** `sendReminderEmail`: the guards on its arguments, the template lookup,
    the mail data built from the subscription and the mail handed to the
    transport. The transport itself is a black box whose outcome is a
    parameter. */
module SendEmail {
  import opened Wrappers
  import opened Text
  import opened Api
  import opened SubscriptionModel
  import opened EmailTemplate

  /** The fixed `from` address of every reminder. */
  const Sender: string := "SubscriptionTracker <oluwese5life2@gmail.com>"

  /** The `mailOptions` object passed to `transporter.sendMail`. */
  datatype MailOptions = MailOptions(from: string, to: string, subject: string, html: Html)

  /** Why `sendReminderEmail` throws. `OwnerMissing` is the TypeError of
      reading `subscription.user.name` when the owner was populated as
      `null`; `TransportFailure` is the transport's error, rethrown. */
  datatype MailError =
    | MissingParameters
    | InvalidType(kind: string)
    | OwnerMissing
    | TransportFailure

  /** `mailInfo` and `mailOptions` for a subscription whose owner is known. */
  function Compose(to: string, t: Template, p: Populated, owner: Contact, renewalDate: int): MailOptions
  {
    var info := MailInfo(owner.name, p.sub.name, renewalDate, FormatPrice(p.sub), p.sub.paymentMethod);
    MailOptions(Sender, to, GenerateSubject(t, info), GenerateBody(t, info))
  }

  /** `sendReminderEmail({ to, type, subscription })`. `renewalDate` is the
      timestamp the mail shows as the renewal date (the source formats
      `subscription.renewalDate`, a path the schema does not declare; the
      schema's path is `renewDate`). `delivered` is the transport's
      outcome. */
  function SendReminderEmail(to: Option<string>, kind: Option<string>, subscription: Option<Populated>,
                             renewalDate: int, delivered: bool): (r: Result<MailOptions, MailError>)
    ensures (Falsy(to) || Falsy(kind) || subscription.None?) <==> r == Err(MissingParameters)
    ensures !Falsy(to) && !Falsy(kind) && subscription.Some? ==>
              (GetEmailTemplate(kind.value).None? <==> r == Err(InvalidType(kind.value)))
    ensures r.Err? && r.error.OwnerMissing? <==>
              !Falsy(to) && !Falsy(kind) && subscription.Some? && GetEmailTemplate(kind.value).Some?
              && subscription.value.owner.None?
    ensures r.Ok? <==>
              !Falsy(to) && !Falsy(kind) && subscription.Some? && GetEmailTemplate(kind.value).Some?
              && subscription.value.owner.Some? && delivered
    ensures r.Ok? ==>
              && r.value.from == Sender && r.value.to == to.value
              && r.value.html.template == kind.value
              && Contains(r.value.subject, subscription.value.sub.name)
              && r.value.html.info.price == FormatPrice(subscription.value.sub)
              && r.value.html.info.userName == subscription.value.owner.value.name
              && r.value.html.info.subscriptionName == subscription.value.sub.name
              && r.value.html.info.paymentMethod == subscription.value.sub.paymentMethod
  {
    if Falsy(to) || Falsy(kind) || subscription.None? then Err(MissingParameters)
    else
      var template := GetEmailTemplate(kind.value);
      if template.None? then Err(InvalidType(kind.value))
      else if subscription.value.owner.None? then Err(OwnerMissing)
      else
        var mail := Compose(to.value, template.value, subscription.value, subscription.value.owner.value, renewalDate);
        if !delivered then Err(TransportFailure) else Ok(mail)
  }

  /** Two reminders whose mails carry the same price line are for
      subscriptions with the same currency, price and frequency. */
  lemma MailPriceIdentifies(to: string, kind: string, x: Populated, y: Populated, renewalDate: int)
    requires SendReminderEmail(Some(to), Some(kind), Some(x), renewalDate, true).Ok?
    requires SendReminderEmail(Some(to), Some(kind), Some(y), renewalDate, true).Ok?
    requires SendReminderEmail(Some(to), Some(kind), Some(x), renewalDate, true).value.html.info.price
             == SendReminderEmail(Some(to), Some(kind), Some(y), renewalDate, true).value.html.info.price
    ensures x.sub.currency == y.sub.currency && x.sub.price == y.sub.price && x.sub.frequency == y.sub.frequency
  {
    FormatPriceInjective(x.sub, y.sub);
  }
}
