/** The reminder email templates: one per reminder label, each with a
    subject line and an HTML body built from the mail data, the lookup of a
    template by label, and the price line shown in the mail. */
module EmailTemplate {
  import opened Wrappers
  import opened Text
  import opened SubscriptionModel
  import SubscriptionBody

  /** The data a template is filled with. The renewal date is kept as the
      timestamp it is formatted from. */
  datatype MailInfo = MailInfo(
    userName: string, subscriptionName: string, renewalDate: int, price: string, paymentMethod: string)

  /** A rendered HTML body, kept abstract: which template rendered which
      data. */
  datatype Html = Html(template: string, info: MailInfo)

  /** A template: its label (the source's `label` key; `label` is a word
      Dafny reserves) and the text its subject puts before and after the
      subscription name. */
  datatype Template = Template(labelText: string, subjectHead: string, subjectTail: string)

  function GenerateSubject(t: Template, data: MailInfo): (r: string)
    ensures OccursAt(r, data.subscriptionName, |t.subjectHead|)
    ensures Contains(r, data.subscriptionName)
  {
    var r := t.subjectHead + data.subscriptionName + t.subjectTail;
    assert r[|t.subjectHead|..|t.subjectHead| + |data.subscriptionName|] == data.subscriptionName;
    assert OccursAt(r, data.subscriptionName, |t.subjectHead|);
    r
  }

  function GenerateBody(t: Template, data: MailInfo): Html
  {
    Html(t.labelText, data)
  }

  const ReminderHead: string := "\U{1F514} Reminder: Your "
  const FinalReminderHead: string := "\U{23F0} Final Reminder: Your "
  const LastChanceHead: string := "\U{1F6A8} Last Chance: Your "

  const FiveDays: Template := Template("5_days_before", ReminderHead, " subscription renews in 5 days")
  const SevenDays: Template := Template("7_days_before", ReminderHead, " subscription renews in 7 days")
  const TwoDays: Template := Template("2_days_before", FinalReminderHead, " subscription renews in 2 days")
  const OneDay: Template := Template("1_days_before", LastChanceHead, " subscription renews TOMORROW")

  /** `emailTemplate`, in its declared order. */
  const Templates: seq<Template> := [FiveDays, SevenDays, TwoDays, OneDay]

  /** `emailTemplate.find(...)`: a template whose label is `labelText`, when
      there is one. */
  function FindTemplate(ts: seq<Template>, labelText: string): (r: Option<Template>)
    ensures r.Some? <==> exists i :: 0 <= i < |ts| && ts[i].labelText == labelText
    ensures r.Some? ==> r.value.labelText == labelText && r.value in ts
  {
    if ts == [] then None
    else if ts[0].labelText == labelText then Some(ts[0])
    else
      var r := FindTemplate(ts[1..], labelText);
      assert forall i :: 1 <= i < |ts| ==> ts[i] == ts[1..][i - 1];
      r
  }

  /** `getEmailTemplate`. */
  function GetEmailTemplate(labelText: string): Option<Template>
  {
    FindTemplate(Templates, labelText)
  }

  predicate DistinctLabels(ts: seq<Template>)
  {
    forall i, j :: 0 <= i < j < |ts| ==> ts[i].labelText != ts[j].labelText
  }

  /** There are exactly four templates, for 5, 7, 2 and 1 days before, and
      no two share a label. */
  lemma TemplateLabels()
    ensures |Templates| == 4
    ensures Templates[0].labelText == "5_days_before" && Templates[1].labelText == "7_days_before"
    ensures Templates[2].labelText == "2_days_before" && Templates[3].labelText == "1_days_before"
    ensures DistinctLabels(Templates)
  {
    assert FiveDays.labelText[0] == '5' && SevenDays.labelText[0] == '7';
    assert TwoDays.labelText[0] == '2' && OneDay.labelText[0] == '1';
  }

  /** With distinct labels the lookup finds the one template with the
      label asked for. */
  lemma {:induction false} FindByOwnLabel(ts: seq<Template>, i: nat)
    requires DistinctLabels(ts) && i < |ts|
    ensures FindTemplate(ts, ts[i].labelText) == Some(ts[i])
  {
    if i > 0 {
      assert ts[0].labelText != ts[i].labelText;
      assert ts[1..][i - 1] == ts[i];
      FindByOwnLabel(ts[1..], i - 1);
    }
  }

  /** `getEmailTemplate` answers each template for its own label, and
      nothing for any other text. */
  lemma GetEmailTemplateExact(labelText: string)
    ensures GetEmailTemplate(labelText).Some? <==>
              labelText in {"5_days_before", "7_days_before", "2_days_before", "1_days_before"}
    ensures forall i :: 0 <= i < |Templates| ==> GetEmailTemplate(Templates[i].labelText) == Some(Templates[i])
  {
    TemplateLabels();
    forall i | 0 <= i < |Templates|
      ensures GetEmailTemplate(Templates[i].labelText) == Some(Templates[i])
    {
      FindByOwnLabel(Templates, i);
    }
  }

  /** `formatPrice`: currency, price and billing frequency on one line. */
  function FormatPrice(s: Subscription): string
  {
    CurrencyName(s.currency) + " " + IntToString(s.price) + " (" + FrequencyName(s.frequency) + ")"
  }

  /** The position of the first `c` in `s`, or `|s|`. */
  function IndexOf(s: string, c: char): (i: nat)
    ensures i <= |s|
  {
    if s == [] || s[0] == c then 0 else 1 + IndexOf(s[1..], c)
  }

  lemma {:induction false} IndexOfAfter(a: string, b: string, c: char)
    requires c !in a
    ensures IndexOf(a + [c] + b, c) == |a|
  {
    if a != [] {
      assert (a + [c] + b)[1..] == a[1..] + [c] + b;
      IndexOfAfter(a[1..], b, c);
    }
  }

  /** `a` is the part of `a + [c] + b` before its first `c`. */
  lemma SplitAtFirst(a: string, b: string, a': string, b': string, c: char)
    requires c !in a && c !in a' && a + [c] + b == a' + [c] + b'
    ensures a == a' && b == b'
  {
    IndexOfAfter(a, b, c);
    IndexOfAfter(a', b', c);
    assert a == (a + [c] + b)[..|a|];
    assert a' == (a' + [c] + b')[..|a'|];
    assert b == (a + [c] + b)[|a| + 1..];
    assert b' == (a' + [c] + b')[|a'| + 1..];
  }

  lemma PriceLineParts(c: string, p: string, f: string)
    ensures c + " " + p + " (" + f + ")" == c + [' '] + (p + [' '] + ("(" + f + ")"))
  {
  }

  lemma NoSpaceInCurrency(c: Currency)
    ensures ' ' !in CurrencyName(c)
  {
  }

  lemma Unbracket(f: string, g: string)
    requires "(" + f + ")" == "(" + g + ")"
    ensures f == g
  {
    assert f == ("(" + f + ")")[1..|f| + 1];
    assert g == ("(" + g + ")")[1..|g| + 1];
  }

  /** The price line tells the currency, the price and the frequency
      apart: two subscriptions with the same line agree on all three. */
  lemma FormatPriceInjective(x: Subscription, y: Subscription)
    requires FormatPrice(x) == FormatPrice(y)
    ensures x.currency == y.currency && x.price == y.price && x.frequency == y.frequency
  {
    var cx, px, fx := CurrencyName(x.currency), IntToString(x.price), FrequencyName(x.frequency);
    var cy, py, fy := CurrencyName(y.currency), IntToString(y.price), FrequencyName(y.frequency);
    PriceLineParts(cx, px, fx);
    PriceLineParts(cy, py, fy);
    NoSpaceInCurrency(x.currency);
    NoSpaceInCurrency(y.currency);
    SplitAtFirst(cx, px + [' '] + ("(" + fx + ")"), cy, py + [' '] + ("(" + fy + ")"), ' ');
    IntToStringChars(x.price, ' ');
    IntToStringChars(y.price, ' ');
    SplitAtFirst(px, "(" + fx + ")", py, "(" + fy + ")", ' ');
    Unbracket(fx, fy);
    IntToStringInjective(x.price, y.price);
    SubscriptionBody.EnumNamesParse(x.currency, Others, Active, x.frequency);
    SubscriptionBody.EnumNamesParse(y.currency, Others, Active, y.frequency);
  }
}
