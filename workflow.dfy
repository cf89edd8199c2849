/** The reminder workflow `sendReminders`: a durable run that fetches the
    subscription once, then for each reminder offset sleeps until the
    reminder date (when that lies ahead) and runs a step that sends the
    reminder mail.

    The durable-execution library is modelled by an explicit run log
    (`RunState`): the results recorded by completed `context.run` steps, the
    completed `context.sleepUntil` steps, the current time and the effects
    observable from outside (sleeps and mails). It is an ASSUMPTION about
    that library, whose code is not part of this model, that a step already
    recorded in the log is skipped on replay and its recorded result
    returned instead. */
module Workflow {
  import opened Wrappers
  import opened Text
  import opened Time
  import opened UserModel
  import opened SubscriptionModel
  import opened Store
  import opened EmailTemplate
  import opened SendEmail

  /** `REMINDERS`: the offsets in days before renewal, in the order the loop
      visits them. */
  const Reminders: seq<nat> := [5, 7, 2, 1]

  /** The same offsets, latest first: the order under which every reminder
      goes out on its own date. */
  const IntendedReminders: seq<nat> := [7, 5, 2, 1]

  /** The step that fetches the subscription. */
  const FetchLabel: string := "get subscription"

  const LabelSuffix: string := "_days_before"

  /** `${daysbefore}_days_before`: the name of the sleep and of the run step
      of one offset, and the mail type it asks for. */
  function Label(d: nat): (r: string)
    ensures |r| > |LabelSuffix| && IsDigit(r[0])
  {
    NatToString(d) + LabelSuffix
  }

  /** Distinct offsets have distinct step names. */
  lemma LabelInjective(a: nat, b: nat)
    requires Label(a) == Label(b)
    ensures a == b
  {
    var sa, sb := NatToString(a), NatToString(b);
    assert |sa| == |sb|;
    assert sa == Label(a)[..|sa|];
    assert sb == Label(b)[..|sb|];
    NatToStringInjective(a, b);
  }

  /** No offset step is named like the fetch step. */
  lemma LabelNotFetch(d: nat)
    ensures Label(d) != FetchLabel
  {
    assert FetchLabel[0] == 'g';
  }

  /** Something observable from outside the run. */
  datatype Event =
    | Slept(step: string, until: int)
    | Mailed(at: int, step: string, mail: MailOptions)

  /** The durable log of one run. `runs` maps each completed `context.run`
      step to the value it returned (`None` for `null` or `undefined`). */
  datatype RunState = RunState(
    clock: int,
    runs: map<string, Option<Populated>>,
    sleeps: set<string>,
    events: seq<Event>)

  /** Why a reminder step throws: `NoOwner` is the TypeError of reading
      `subscription.user.email` when the owner was populated as `null`. */
  datatype Failure = NoOwner | MailFailed(error: MailError)

  /** The log after a step, and the error the step threw, if any. */
  datatype Progress = Progress(state: RunState, failure: Option<Failure>)

  datatype Fetched = Fetched(state: RunState, sub: Option<Populated>)

  /** How a run ends. */
  datatype Exit = NotActive | RenewalPassed | AllProcessed | Failed(failure: Failure)

  datatype RunOutcome = RunOutcome(exit: Exit, state: RunState)

  /** `fetchSubscription`: the step `"get subscription"` reads the document
      with its owner populated, or replays what it read before. */
  function Fetch(st: RunState, subs: map<SubId, Subscription>, users: map<UserId, User>, id: SubId): (r: Fetched)
    ensures FetchLabel in st.runs ==> r == Fetched(st, st.runs[FetchLabel])
    ensures FetchLabel !in st.runs ==>
              && (r.sub.Some? <==> id in subs)
              && (r.sub.Some? ==> r.sub.value == Populate(users, subs[id]))
              && r.state == st.(runs := st.runs[FetchLabel := r.sub])
  {
    if FetchLabel in st.runs then Fetched(st, st.runs[FetchLabel])
    else
      var p := if id in subs then Some(Populate(users, subs[id])) else None;
      Fetched(st.(runs := st.runs[FetchLabel := p]), p)
  }

  /** `sleepUntilReminder`: `context.sleepUntil(step, until)`. A sleep the log
      already holds is skipped; otherwise the run resumes at `until`. */
  function SleepUntil(st: RunState, step: string, until: int): (r: RunState)
    ensures r.runs == st.runs && r.clock >= st.clock
    ensures step in st.sleeps ==> r == st
    ensures step !in st.sleeps ==>
              && r.sleeps == st.sleeps + {step}
              && r.events == st.events + [Slept(step, until)]
              && r.clock == (if until > st.clock then until else st.clock)
  {
    if step in st.sleeps then st
    else st.(clock := if until > st.clock then until else st.clock,
             sleeps := st.sleeps + {step},
             events := st.events + [Slept(step, until)])
  }

  /** `triggerReminder`: the step named `step` mails the owner a reminder of
      type `step`; `step in fails` means the transport fails for it. The mail
      shows `renewal` as the renewal date. */
  function Trigger(st: RunState, step: string, p: Populated, renewal: int, fails: set<string>): (r: Progress)
    ensures step in st.runs ==> r == Progress(st, None)
    ensures r.failure.Some? ==> r.state == st
    ensures r.state.clock == st.clock && r.state.sleeps == st.sleeps && r.state.runs.Keys >= st.runs.Keys
    ensures |r.state.events| >= |st.events| && r.state.events[..|st.events|] == st.events
  {
    if step in st.runs then Progress(st, None)
    else if p.owner.None? then Progress(st, Some(NoOwner))
    else
      match SendReminderEmail(Some(p.owner.value.email), Some(step), Some(p), renewal, step !in fails)
      case Ok(mail) =>
        Progress(st.(runs := st.runs[step := None], events := st.events + [Mailed(st.clock, step, mail)]), None)
      case Err(e) => Progress(st, Some(MailFailed(e)))
  }

  /** What a reminder step not yet in the log does: without an owner it
      throws, and otherwise it mails the owner's address a reminder of type
      `step` about this subscription, records the step and logs the mail, or
      throws the mail error (an unknown type, a transport failure) and
      leaves the log as it was. */
  lemma TriggerOutcome(st: RunState, step: string, p: Populated, renewal: int, fails: set<string>)
    requires step !in st.runs
    ensures p.owner.None? ==> Trigger(st, step, p, renewal, fails) == Progress(st, Some(NoOwner))
    ensures p.owner.Some? && p.owner.value.email != [] && step != [] ==>
              var r := Trigger(st, step, p, renewal, fails);
              && (GetEmailTemplate(step).None? ==> r == Progress(st, Some(MailFailed(InvalidType(step)))))
              && (GetEmailTemplate(step).Some? && step in fails ==> r == Progress(st, Some(MailFailed(TransportFailure))))
              && (GetEmailTemplate(step).Some? && step !in fails ==>
                    && r.failure.None?
                    && r.state.runs == st.runs[step := None] && r.state.sleeps == st.sleeps && r.state.clock == st.clock
                    && |r.state.events| == |st.events| + 1 && r.state.events[..|st.events|] == st.events
                    && var e := r.state.events[|st.events|];
                       && e.Mailed? && e.at == st.clock && e.step == step
                       && e.mail.to == p.owner.value.email && e.mail.from == Sender
                       && e.mail.html.template == step && Contains(e.mail.subject, p.sub.name)
                       && e.mail.html.info.price == FormatPrice(p.sub))
  {
    if p.owner.Some? && p.owner.value.email != [] && step != [] {
      var sent := SendReminderEmail(Some(p.owner.value.email), Some(step), Some(p), renewal, step !in fails);
      var r := Trigger(st, step, p, renewal, fails);
      if sent.Ok? {
        assert r.state.events == st.events + [Mailed(st.clock, step, sent.value)];
      }
    }
  }

  /** One turn of the `for ... of` loop: sleep until the reminder date of
      offset `d` when it lies ahead, then trigger its reminder. */
  function Turn(st: RunState, p: Populated, renewal: int, d: nat, fails: set<string>): (r: Progress)
    ensures r.state.clock >= st.clock
    ensures |r.state.events| >= |st.events| && r.state.events[..|st.events|] == st.events
    ensures r.state.runs.Keys >= st.runs.Keys && r.state.sleeps >= st.sleeps
  {
    var date := renewal - d * DayMs;
    var slept := if date > st.clock then SleepUntil(st, Label(d), date) else st;
    var r := Trigger(slept, Label(d), p, renewal, fails);
    assert r.state.events[..|st.events|] == r.state.events[..|slept.events|][..|st.events|];
    r
  }

  /** A turn is its step's trigger, run on the state after its sleep. */
  lemma TurnAfterSleep(st: RunState, slept: RunState, p: Populated, renewal: int, d: nat, fails: set<string>)
    requires slept == if renewal - d * DayMs > st.clock then SleepUntil(st, Label(d), renewal - d * DayMs) else st
    ensures Turn(st, p, renewal, d, fails) == Trigger(slept, Label(d), p, renewal, fails)
  {
  }

  /** The `for ... of` loop over the offsets `ds`; the first step that
      throws ends the loop. */
  function Loop(st: RunState, p: Populated, renewal: int, ds: seq<nat>, fails: set<string>): (r: Progress)
    ensures r.state.clock >= st.clock
    ensures |r.state.events| >= |st.events| && r.state.events[..|st.events|] == st.events
    ensures r.state.runs.Keys >= st.runs.Keys && r.state.sleeps >= st.sleeps
    decreases |ds|
  {
    if ds == [] then Progress(st, None)
    else
      var pr := Turn(st, p, renewal, ds[0], fails);
      if pr.failure.Some? then pr
      else
        var r := Loop(pr.state, p, renewal, ds[1..], fails);
        assert r.state.events[..|st.events|] == r.state.events[..|pr.state.events|][..|st.events|];
        r
  }

  /** The loop over `ds[i..]` is the turn of `ds[i]`, followed, unless it
      throws, by the loop over `ds[i + 1..]`. */
  lemma LoopStep(st: RunState, p: Populated, renewal: int, ds: seq<nat>, i: nat, fails: set<string>)
    requires i < |ds|
    ensures Loop(st, p, renewal, ds[i..], fails)
            == (var pr := Turn(st, p, renewal, ds[i], fails);
                if pr.failure.Some? then pr else Loop(pr.state, p, renewal, ds[i + 1..], fails))
  {
    assert ds[i..][0] == ds[i] && ds[i..][1..] == ds[i + 1..];
  }

  /** The handler passed to `serve`, visiting the offsets `ds`. `renewal` is
      the renewal date the handler reads from the fetched document. (The
      source reads `subscription.renewalDate`, while the schema's path is
      `renewDate`; the model takes the date as given.) */
  function Handler(st: RunState, subs: map<SubId, Subscription>, users: map<UserId, User>, id: SubId,
                   renewal: int, ds: seq<nat>, fails: set<string>): (r: RunOutcome)
    ensures var f := Fetch(st, subs, users, id);
            && (r.exit == NotActive <==> f.sub.None? || f.sub.value.sub.status != Active)
            && (r.exit == RenewalPassed <==>
                  f.sub.Some? && f.sub.value.sub.status == Active && renewal < st.clock)
            && (r.exit == NotActive || r.exit == RenewalPassed ==> r.state == f.state)
    ensures |r.state.events| >= |st.events| && r.state.events[..|st.events|] == st.events
    ensures r.state.clock >= st.clock
  {
    var f := Fetch(st, subs, users, id);
    if f.sub.None? || f.sub.value.sub.status != Active then RunOutcome(NotActive, f.state)
    else if renewal < f.state.clock then RunOutcome(RenewalPassed, f.state)
    else
      var pr := Loop(f.state, f.sub.value, renewal, ds, fails);
      RunOutcome(if pr.failure.Some? then Failed(pr.failure.value) else AllProcessed, pr.state)
  }

  /** The workflow's context: the run log, updated in place by each step. */
  class WorkflowContext {
    var clock: int
    var runs: map<string, Option<Populated>>
    var sleeps: set<string>
    var events: seq<Event>

    function State(): RunState
      reads this
    {
      RunState(clock, runs, sleeps, events)
    }

    constructor (st: RunState)
      ensures State() == st
    {
      clock := st.clock;
      runs := st.runs;
      sleeps := st.sleeps;
      events := st.events;
    }

    method FetchSubscription(subs: map<SubId, Subscription>, users: map<UserId, User>, id: SubId)
      returns (p: Option<Populated>)
      modifies this
      ensures Fetched(State(), p) == Fetch(old(State()), subs, users, id)
    {
      if FetchLabel in runs {
        p := runs[FetchLabel];
      } else {
        p := if id in subs then Some(Populate(users, subs[id])) else None;
        runs := runs[FetchLabel := p];
      }
    }

    method SleepUntilReminder(step: string, until: int)
      modifies this
      ensures State() == SleepUntil(old(State()), step, until)
    {
      if step !in sleeps {
        if until > clock {
          clock := until;
        }
        sleeps := sleeps + {step};
        events := events + [Slept(step, until)];
      }
    }

    method TriggerReminder(step: string, p: Populated, renewal: int, fails: set<string>)
      returns (failure: Option<Failure>)
      modifies this
      ensures Progress(State(), failure) == Trigger(old(State()), step, p, renewal, fails)
    {
      if step in runs {
        return None;
      }
      if p.owner.None? {
        return Some(NoOwner);
      }
      var sent := SendReminderEmail(Some(p.owner.value.email), Some(step), Some(p), renewal, step !in fails);
      if sent.Err? {
        return Some(MailFailed(sent.error));
      }
      runs := runs[step := None];
      events := events + [Mailed(clock, step, sent.value)];
      failure := None;
    }

    /** One pass of the `for ... of` loop: sleep until the reminder date of
        offset `d` when it lies ahead, then trigger its reminder. */
    method RemindOne(p: Populated, renewal: int, d: nat, fails: set<string>)
      returns (failure: Option<Failure>)
      modifies this
      ensures Progress(State(), failure) == Turn(old(State()), p, renewal, d, fails)
    {
      ghost var before := State();
      var reminderDate := renewal - d * DayMs;
      if reminderDate > clock {
        SleepUntilReminder(Label(d), reminderDate);
      }
      TurnAfterSleep(before, State(), p, renewal, d, fails);
      failure := TriggerReminder(Label(d), p, renewal, fails);
    }

    /** The `for ... of` loop of `sendReminders` over the offsets `ds`. */
    method RemindEach(p: Populated, renewal: int, ds: seq<nat>, fails: set<string>)
      returns (failure: Option<Failure>)
      modifies this
      ensures Progress(State(), failure) == Loop(old(State()), p, renewal, ds, fails)
    {
      ghost var start := State();
      var i := 0;
      while i < |ds|
        invariant 0 <= i <= |ds|
        invariant Loop(start, p, renewal, ds, fails) == Loop(State(), p, renewal, ds[i..], fails)
      {
        LoopStep(State(), p, renewal, ds, i, fails);
        failure := RemindOne(p, renewal, ds[i], fails);
        if failure.Some? {
          return;
        }
        i := i + 1;
      }
      assert ds[i..] == [];
      failure := None;
    }

    /** `sendReminders` over `REMINDERS`. */
    method SendReminders(subs: map<SubId, Subscription>, users: map<UserId, User>, id: SubId,
                         renewal: int, fails: set<string>)
      returns (exit: Exit)
      modifies this
      ensures RunOutcome(exit, State()) == Handler(old(State()), subs, users, id, renewal, Reminders, fails)
    {
      var p := FetchSubscription(subs, users, id);
      if p.None? || p.value.sub.status != Active {
        return NotActive;
      }
      if renewal < clock {
        return RenewalPassed;
      }
      var failure := RemindEach(p.value, renewal, Reminders, fails);
      exit := if failure.Some? then Failed(failure.value) else AllProcessed;
    }
  }

  // The reminders of an uninterrupted run.

  predicate Distinct(ds: seq<nat>)
  {
    forall i, j :: 0 <= i < j < |ds| ==> ds[i] != ds[j]
  }

  /** No step or sleep of the offsets `ds` is in the log yet. */
  predicate Fresh(st: RunState, ds: seq<nat>)
  {
    forall d :: d in ds ==> Label(d) !in st.runs && Label(d) !in st.sleeps
  }

  /** The offsets whose step names have a template. */
  const TemplateOffsets: set<nat> := {5, 7, 2, 1}

  /** Every reminder of `ds` reaches the owner of `p`. */
  predicate Deliverable(p: Populated, ds: seq<nat>, fails: set<string>)
  {
    && p.owner.Some? && p.owner.value.email != []
    && forall d :: d in ds ==> d in TemplateOffsets && Label(d) !in fails
  }

  /** When and under which step name something observable happened. */
  datatype Beat = Nap(step: string, until: int) | Send(at: int, step: string)

  function BeatOf(e: Event): Beat
  {
    match e
    case Slept(step, until) => Nap(step, until)
    case Mailed(at, step, _) => Send(at, step)
  }

  /** The events of a log, without the mails' contents. */
  function Timeline(es: seq<Event>): seq<Beat>
  {
    if es == [] then [] else [BeatOf(es[0])] + Timeline(es[1..])
  }

  lemma {:induction false} TimelineAppend(a: seq<Event>, b: seq<Event>)
    ensures Timeline(a + b) == Timeline(a) + Timeline(b)
  {
    if a == [] {
      assert a + b == b;
    } else {
      assert (a + b)[0] == a[0] && (a + b)[1..] == a[1..] + b;
      TimelineAppend(a[1..], b);
      assert Timeline(a + b) == [BeatOf(a[0])] + Timeline(a[1..] + b);
    }
  }

  function Max(a: int, b: int): int
  {
    if a > b then a else b
  }

  /** The first turn of a plan: a sleep when the reminder date lies ahead,
      then the mail. */
  function PlanHead(clock: int, renewal: int, d: nat): seq<Beat>
  {
    var date := renewal - d * DayMs;
    (if date > clock then [Nap(Label(d), date)] else []) + [Send(Max(clock, date), Label(d))]
  }

  /** What an uninterrupted run from `clock` does, turn by turn. */
  function Plan(clock: int, renewal: int, ds: seq<nat>): seq<Beat>
    decreases |ds|
  {
    if ds == [] then []
    else PlanHead(clock, renewal, ds[0]) + Plan(Max(clock, renewal - ds[0] * DayMs), renewal, ds[1..])
  }

  lemma LabelFive() ensures Label(5) == FiveDays.labelText { }
  lemma LabelSeven() ensures Label(7) == SevenDays.labelText { }
  lemma LabelTwo() ensures Label(2) == TwoDays.labelText { }
  lemma LabelOne() ensures Label(1) == OneDay.labelText { }

  /** The step names of the offsets 5, 7, 2 and 1 are the labels of the
      four templates, in their declared order. */
  lemma OffsetLabels()
    ensures Label(5) == Templates[0].labelText && Label(7) == Templates[1].labelText
    ensures Label(2) == Templates[2].labelText && Label(1) == Templates[3].labelText
  {
    LabelFive();
    LabelSeven();
    LabelTwo();
    LabelOne();
  }

  /** A step name has a template exactly when its offset is 5, 7, 2 or 1;
      the template found is the one of that name. */
  lemma OffsetTemplates(d: nat)
    ensures GetEmailTemplate(Label(d)).Some? <==> d in TemplateOffsets
    ensures GetEmailTemplate(Label(d)).Some? ==> GetEmailTemplate(Label(d)).value.labelText == Label(d)
  {
    OffsetLabels();
    TemplateLabels();
    if d in TemplateOffsets {
      var i := if d == 5 then 0 else if d == 7 then 1 else if d == 2 then 2 else 3;
      FindByOwnLabel(Templates, i);
    } else if GetEmailTemplate(Label(d)).Some? {
      var t := GetEmailTemplate(Label(d)).value;
      var i :| 0 <= i < |Templates| && Templates[i].labelText == Label(d);
      LabelInjective(d, [5, 7, 2, 1][i]);
    }
  }

  /** A fresh, deliverable turn succeeds, records its step and leaves the
      clock at the later of now and its reminder date. */
  lemma TurnSucceeds(st: RunState, p: Populated, renewal: int, d: nat, fails: set<string>)
    requires Label(d) !in st.runs && Label(d) !in st.sleeps
    requires Deliverable(p, [d], fails)
    ensures Turn(st, p, renewal, d, fails).failure.None?
    ensures Turn(st, p, renewal, d, fails).state.clock == Max(st.clock, renewal - d * DayMs)
    ensures Turn(st, p, renewal, d, fails).state.runs == st.runs[Label(d) := None]
    ensures Turn(st, p, renewal, d, fails).state.sleeps <= st.sleeps + {Label(d)}
    ensures var date := renewal - d * DayMs;
            var pre := st.events + if date > st.clock then [Slept(Label(d), date)] else [];
            var es := Turn(st, p, renewal, d, fails).state.events;
            && |es| == |pre| + 1 && es[..|pre|] == pre
            && es[|pre|].Mailed? && es[|pre|].at == Max(st.clock, date) && es[|pre|].step == Label(d)
  {
    var date := renewal - d * DayMs;
    var slept := if date > st.clock then SleepUntil(st, Label(d), date) else st;
    TurnAfterSleep(st, slept, p, renewal, d, fails);
    assert d in [d];
    OffsetTemplates(d);
    TriggerOutcome(slept, Label(d), p, renewal, fails);
  }

  /** A turn for an offset not yet in the log, whose reminder can be
      delivered, sleeps when its date lies ahead and then sends the mail. */
  lemma TurnFollowsPlan(st: RunState, p: Populated, renewal: int, d: nat, fails: set<string>)
    requires Label(d) !in st.runs && Label(d) !in st.sleeps
    requires Deliverable(p, [d], fails)
    ensures Turn(st, p, renewal, d, fails).failure.None?
    ensures Timeline(Turn(st, p, renewal, d, fails).state.events) == Timeline(st.events) + PlanHead(st.clock, renewal, d)
  {
    TurnSucceeds(st, p, renewal, d, fails);
    var date := renewal - d * DayMs;
    var pre := st.events + if date > st.clock then [Slept(Label(d), date)] else [];
    TimelineOfTurn(st.events, pre, Turn(st, p, renewal, d, fails).state.events, st.clock, renewal, d);
  }

  /** The timeline of a turn's log: the sleep, when its date lies ahead of
      `clock`, then the mail. */
  lemma TimelineOfTurn(before: seq<Event>, slept: seq<Event>, after: seq<Event>, clock: int, renewal: int, d: nat)
    requires slept == before + if renewal - d * DayMs > clock then [Slept(Label(d), renewal - d * DayMs)] else []
    requires |after| == |slept| + 1 && after[..|slept|] == slept
    requires after[|slept|].Mailed? && after[|slept|].at == Max(clock, renewal - d * DayMs)
    requires after[|slept|].step == Label(d)
    ensures Timeline(after) == Timeline(before) + PlanHead(clock, renewal, d)
  {
    var date, step := renewal - d * DayMs, Label(d);
    var e := after[|slept|];
    assert after == slept + [e];
    TimelineAppend(slept, [e]);
    assert Timeline([e]) == [Send(Max(clock, date), step)];
    if date > clock {
      TimelineAppend(before, [Slept(step, date)]);
      assert Timeline([Slept(step, date)]) == [Nap(step, date)];
    } else {
      assert slept == before;
    }
  }

  /** After the turn of the first offset, the remaining offsets are still
      fresh, distinct and deliverable. */
  lemma RestStillFresh(st: RunState, st': RunState, p: Populated, ds: seq<nat>, fails: set<string>)
    requires ds != [] && Fresh(st, ds) && Distinct(ds) && Deliverable(p, ds, fails)
    requires st'.runs.Keys <= st.runs.Keys + {Label(ds[0])} && st'.sleeps <= st.sleeps + {Label(ds[0])}
    ensures Fresh(st', ds[1..]) && Distinct(ds[1..]) && Deliverable(p, ds[1..], fails)
    ensures Label(ds[0]) !in st.runs && Label(ds[0]) !in st.sleeps && Deliverable(p, [ds[0]], fails)
  {
    forall e | e in ds[1..]
      ensures Label(e) !in st'.runs && Label(e) !in st'.sleeps
    {
      if Label(e) == Label(ds[0]) {
        LabelInjective(e, ds[0]);
      }
    }
    assert forall e :: e in ds[1..] ==> e in ds;
  }

  /** One turn of a fresh, deliverable run: the loop continues from the
      turn's state, whose log has grown by the plan's first turn and whose
      remaining offsets are still fresh. */
  lemma TurnOnPlan(st: RunState, p: Populated, renewal: int, ds: seq<nat>, fails: set<string>) returns (st': RunState)
    requires ds != [] && Fresh(st, ds) && Distinct(ds) && Deliverable(p, ds, fails)
    ensures Loop(st, p, renewal, ds, fails) == Loop(st', p, renewal, ds[1..], fails)
    ensures Timeline(st'.events) == Timeline(st.events) + PlanHead(st.clock, renewal, ds[0])
    ensures st'.clock == Max(st.clock, renewal - ds[0] * DayMs)
    ensures Fresh(st', ds[1..]) && Distinct(ds[1..]) && Deliverable(p, ds[1..], fails)
  {
    st' := Turn(st, p, renewal, ds[0], fails).state;
    TurnSucceeds(st, p, renewal, ds[0], fails);
    TurnFollowsPlan(st, p, renewal, ds[0], fails);
    RestStillFresh(st, st', p, ds, fails);
  }

  lemma Regroup(before: seq<Beat>, head: seq<Beat>, rest: seq<Beat>, mid: seq<Beat>, fin: seq<Beat>)
    requires mid == before + head && fin == mid + rest
    ensures fin == before + (head + rest)
  {
  }

  /** In a run whose offsets are distinct, not yet in the log and all
      deliverable, the loop completes and does exactly what the plan says. */
  lemma {:induction false} LoopFollowsPlan(st: RunState, p: Populated, renewal: int, ds: seq<nat>, fails: set<string>)
    requires Fresh(st, ds) && Distinct(ds) && Deliverable(p, ds, fails)
    ensures Loop(st, p, renewal, ds, fails).failure.None?
    ensures Timeline(Loop(st, p, renewal, ds, fails).state.events) == Timeline(st.events) + Plan(st.clock, renewal, ds)
    decreases |ds|
  {
    if ds != [] {
      var st' := TurnOnPlan(st, p, renewal, ds, fails);
      LoopFollowsPlan(st', p, renewal, ds[1..], fails);
      Regroup(Timeline(st.events), PlanHead(st.clock, renewal, ds[0]), Plan(st'.clock, renewal, ds[1..]),
              Timeline(st'.events), Timeline(Loop(st', p, renewal, ds[1..], fails).state.events));
    }
  }

  /** The smallest offset of `ds`. */
  function MinDays(ds: seq<nat>): nat
    requires ds != []
    decreases |ds|
  {
    if |ds| == 1 then ds[0]
    else
      var m := MinDays(ds[1..]);
      if ds[0] <= m then ds[0] else m
  }

  /** `MinDays` is one of the offsets and no larger than any of them. */
  lemma {:induction false} MinDaysIsMinimum(ds: seq<nat>)
    requires ds != []
    ensures MinDays(ds) in ds && forall d :: d in ds ==> MinDays(ds) <= d
    decreases |ds|
  {
    if |ds| > 1 {
      MinDaysIsMinimum(ds[1..]);
      assert forall d :: d in ds ==> d == ds[0] || d in ds[1..];
    }
  }

  /** When a run from `clock` has visited the offsets `visited`, its clock
      stands at the latest of `clock` and their reminder dates: the date of
      the smallest offset. */
  function SendTime(clock: int, renewal: int, visited: seq<nat>): int
    requires visited != []
  {
    Max(clock, renewal - MinDays(visited) * DayMs)
  }

  lemma SendTimeStep(clock: int, renewal: int, a: nat, rest: seq<nat>)
    requires rest != []
    ensures SendTime(Max(clock, renewal - a * DayMs), renewal, rest) == SendTime(clock, renewal, [a] + rest)
  {
    assert ([a] + rest)[1..] == rest;
  }

  /** The mails of a timeline, in order. */
  function SendsOf(bs: seq<Beat>): seq<Beat>
  {
    if bs == [] then [] else (if bs[0].Send? then [bs[0]] else []) + SendsOf(bs[1..])
  }

  lemma {:induction false} SendsOfAppend(a: seq<Beat>, b: seq<Beat>)
    ensures SendsOf(a + b) == SendsOf(a) + SendsOf(b)
  {
    if a == [] {
      assert a + b == b;
    } else {
      assert (a + b)[0] == a[0] && (a + b)[1..] == a[1..] + b;
      SendsOfAppend(a[1..], b);
    }
  }

  /** One mail per offset, in the loop's order, the mail of `ds[k]` at the
      send time of the offsets visited up to it. */
  function SendSchedule(clock: int, renewal: int, ds: seq<nat>): (r: seq<Beat>)
    ensures |r| == |ds|
  {
    seq(|ds|, k requires 0 <= k < |ds| => Send(SendTime(clock, renewal, ds[..k + 1]), Label(ds[k])))
  }

  lemma SendsOfHead(clock: int, renewal: int, d: nat)
    ensures SendsOf(PlanHead(clock, renewal, d)) == [Send(Max(clock, renewal - d * DayMs), Label(d))]
  {
    var date := renewal - d * DayMs;
    var send := Send(Max(clock, date), Label(d));
    assert SendsOf([send]) == [send];
    if date > clock {
      var nap := Nap(Label(d), date);
      assert [nap, send][1..] == [send];
      assert SendsOf([nap, send]) == SendsOf([send]);
      assert PlanHead(clock, renewal, d) == [nap, send];
    }
  }

  /** The schedule of a run is its first mail, then the schedule of the
      rest from the clock that mail leaves behind. */
  lemma ScheduleStep(clock: int, renewal: int, ds: seq<nat>)
    requires ds != []
    ensures SendSchedule(clock, renewal, ds)
            == [Send(Max(clock, renewal - ds[0] * DayMs), Label(ds[0]))]
               + SendSchedule(Max(clock, renewal - ds[0] * DayMs), renewal, ds[1..])
  {
    var c' := Max(clock, renewal - ds[0] * DayMs);
    var whole, rest := SendSchedule(clock, renewal, ds), SendSchedule(c', renewal, ds[1..]);
    assert ds[..1] == [ds[0]];
    forall k | 1 <= k < |ds|
      ensures whole[k] == rest[k - 1]
    {
      assert ds[1..][..k] == ds[1..k + 1];
      assert ds[..k + 1] == [ds[0]] + ds[1..k + 1];
      SendTimeStep(clock, renewal, ds[0], ds[1..k + 1]);
    }
  }

  /** The plan mails once per offset: the `k`-th mail is the reminder of
      offset `ds[k]`, sent when the reminder date of the smallest offset
      visited so far is reached (or at once when that date has passed). */
  lemma {:induction false} PlanSendTimes(clock: int, renewal: int, ds: seq<nat>)
    ensures SendsOf(Plan(clock, renewal, ds)) == SendSchedule(clock, renewal, ds)
    decreases |ds|
  {
    if ds != [] {
      var c' := Max(clock, renewal - ds[0] * DayMs);
      SendsOfAppend(PlanHead(clock, renewal, ds[0]), Plan(c', renewal, ds[1..]));
      SendsOfHead(clock, renewal, ds[0]);
      PlanSendTimes(c', renewal, ds[1..]);
      ScheduleStep(clock, renewal, ds);
    }
  }

  /** The beat `b` is the sleep of the `k`-th offset: its reminder date lies
      after `clock` and the offset is smaller than every offset before it. */
  predicate NapAt(clock: int, renewal: int, ds: seq<nat>, b: Beat, k: nat)
  {
    && k < |ds|
    && b == Nap(Label(ds[k]), renewal - ds[k] * DayMs)
    && renewal - ds[k] * DayMs > clock
    && forall j :: 0 <= j < k ==> ds[k] < ds[j]
  }

  /** The plan sleeps only until dates that lie ahead, and only for an
      offset smaller than every offset visited before it: a larger offset's
      date is already behind the clock. */
  lemma {:induction false} PlanNaps(clock: int, renewal: int, ds: seq<nat>)
    ensures forall b :: b in Plan(clock, renewal, ds) && b.Nap? ==> exists k: nat :: NapAt(clock, renewal, ds, b, k)
    decreases |ds|
  {
    if ds != [] {
      var c' := Max(clock, renewal - ds[0] * DayMs);
      var head, rest := PlanHead(clock, renewal, ds[0]), Plan(c', renewal, ds[1..]);
      PlanNaps(c', renewal, ds[1..]);
      forall b: Beat | b in head + rest && b.Nap?
        ensures exists k: nat :: NapAt(clock, renewal, ds, b, k)
      {
        if b in head {
          assert NapAt(clock, renewal, ds, b, 0);
        } else {
          assert b in rest;
          var k: nat :| NapAt(c', renewal, ds[1..], b, k);
          assert ds[1..][k] == ds[k + 1];
          forall j | 0 <= j < k + 1
            ensures ds[k + 1] < ds[j]
          {
            if j > 0 {
              assert ds[1..][j - 1] == ds[j];
            }
          }
          assert NapAt(clock, renewal, ds, b, k + 1);
        }
      }
    }
  }

  /** As written, the loop never sleeps for the 7-day reminder: its date
      always lies before the 5-day date it has already waited for. */
  lemma SevenDayStepNeverSleeps(clock: int, renewal: int)
    ensures forall b :: b in Plan(clock, renewal, Reminders) ==> b.Nap? ==> b.step != Label(7)
  {
    PlanNaps(clock, renewal, Reminders);
    forall b: Beat | b in Plan(clock, renewal, Reminders) && b.Nap?
      ensures b.step != Label(7)
    {
      var k: nat :| NapAt(clock, renewal, Reminders, b, k);
      assert k != 1;
      assert Reminders[k] != 7;
      if b.step == Label(7) {
        LabelInjective(Reminders[k], 7);
      }
    }
  }

  /** As written, when the 5-day date still lies ahead the 7-day reminder is
      mailed 5 days before renewal, right after the 5-day one, not 7 days
      before. */
  lemma SevenDayReminderLate(clock: int, renewal: int)
    requires renewal - 5 * DayMs > clock
    ensures |SendsOf(Plan(clock, renewal, Reminders))| == 4
    ensures SendsOf(Plan(clock, renewal, Reminders))[1] == Send(renewal - 5 * DayMs, Label(7))
    ensures SendsOf(Plan(clock, renewal, Reminders))[0] == Send(renewal - 5 * DayMs, Label(5))
  {
    PlanSendTimes(clock, renewal, Reminders);
    assert Reminders[..2] == [5, 7] && [5, 7][1..] == [7];
    assert Reminders[..1] == [5];
    assert MinDays([5, 7]) == 5;
  }

  /** For offsets in decreasing order, the smallest visited is the last. */
  lemma {:induction false} MinDaysOfDecreasing(ds: seq<nat>)
    requires ds != [] && forall i, j :: 0 <= i < j < |ds| ==> ds[i] > ds[j]
    ensures MinDays(ds) == ds[|ds| - 1]
  {
    MinDaysIsMinimum(ds);
    assert ds[|ds| - 1] in ds;
    forall d | d in ds
      ensures ds[|ds| - 1] <= d
    {
      var i :| 0 <= i < |ds| && ds[i] == d;
    }
  }

  /** With offsets in decreasing order, every reminder is mailed on its own
      date, or at once when that date has passed. */
  lemma DecreasingOnTime(clock: int, renewal: int, ds: seq<nat>)
    requires forall i, j :: 0 <= i < j < |ds| ==> ds[i] > ds[j]
    ensures |SendsOf(Plan(clock, renewal, ds))| == |ds|
    ensures forall k :: 0 <= k < |ds| ==>
              SendsOf(Plan(clock, renewal, ds))[k] == Send(Max(clock, renewal - ds[k] * DayMs), Label(ds[k]))
  {
    PlanSendTimes(clock, renewal, ds);
    var sched := SendSchedule(clock, renewal, ds);
    forall k | 0 <= k < |ds|
      ensures sched[k] == Send(Max(clock, renewal - ds[k] * DayMs), Label(ds[k]))
    {
      var pre := ds[..k + 1];
      assert pre[|pre| - 1] == ds[k];
      MinDaysOfDecreasing(pre);
      assert sched[k] == Send(SendTime(clock, renewal, pre), Label(ds[k]));
    }
  }

  /** With the offsets latest first, every reminder is mailed on its own
      date, or at once when that date has passed. */
  lemma IntendedRemindersOnTime(clock: int, renewal: int)
    ensures |SendsOf(Plan(clock, renewal, IntendedReminders))| == 4
    ensures forall k :: 0 <= k < 4 ==>
              SendsOf(Plan(clock, renewal, IntendedReminders))[k]
              == Send(Max(clock, renewal - IntendedReminders[k] * DayMs), Label(IntendedReminders[k]))
  {
    DecreasingOnTime(clock, renewal, IntendedReminders);
  }

  lemma RemindersDistinct()
    ensures Distinct(Reminders)
  {
    assert Reminders == [5, 7, 2, 1];
  }

  /** Every offset of `REMINDERS` names a template, and no two coincide. */
  lemma WorkflowLabelsHaveTemplates()
    ensures forall d :: d in Reminders ==> d in TemplateOffsets && GetEmailTemplate(Label(d)).Some?
    ensures Distinct(Reminders)
  {
    RemindersDistinct();
    forall d | d in Reminders
      ensures GetEmailTemplate(Label(d)).Some?
    {
      OffsetTemplates(d);
    }
  }

  /** Offset `d` is done in `st`: its step is recorded, and its sleep is
      recorded or its reminder date is already behind the clock. */
  predicate Done(st: RunState, renewal: int, ds: seq<nat>)
  {
    forall d :: d in ds ==> Label(d) in st.runs && (Label(d) in st.sleeps || renewal - d * DayMs <= st.clock)
  }

  /** On replay a done turn does nothing. */
  lemma TurnReplay(st: RunState, p: Populated, renewal: int, d: nat, fails: set<string>)
    requires Done(st, renewal, [d])
    ensures Turn(st, p, renewal, d, fails) == Progress(st, None)
  {
    assert d in [d];
    TurnAfterSleep(st, st, p, renewal, d, fails);
  }

  /** Replaying a loop whose offsets are all done changes nothing and
      sends nothing. */
  lemma {:induction false} ReplayChangesNothing(st: RunState, p: Populated, renewal: int, ds: seq<nat>, fails: set<string>)
    requires Done(st, renewal, ds)
    ensures Loop(st, p, renewal, ds, fails) == Progress(st, None)
    decreases |ds|
  {
    if ds != [] {
      assert ds[0] in ds;
      TurnReplay(st, p, renewal, ds[0], fails);
      assert forall d :: d in ds[1..] ==> d in ds;
      ReplayChangesNothing(st, p, renewal, ds[1..], fails);
    }
  }

  /** A turn that completes leaves its offset done. */
  lemma TurnDone(st: RunState, p: Populated, renewal: int, d: nat, fails: set<string>)
    requires Turn(st, p, renewal, d, fails).failure.None?
    ensures Done(Turn(st, p, renewal, d, fails).state, renewal, [d])
  {
    var date := renewal - d * DayMs;
    var slept := if date > st.clock then SleepUntil(st, Label(d), date) else st;
    TurnAfterSleep(st, slept, p, renewal, d, fails);
  }

  lemma DoneGrows(st: RunState, st': RunState, renewal: int, ds: seq<nat>)
    requires Done(st, renewal, ds)
    requires st.runs.Keys <= st'.runs.Keys && st.sleeps <= st'.sleeps && st.clock <= st'.clock
    ensures Done(st', renewal, ds)
  {
  }

  /** A loop that completes leaves every offset done. */
  lemma {:induction false} LoopCompletesDone(st: RunState, p: Populated, renewal: int, ds: seq<nat>, fails: set<string>)
    requires Loop(st, p, renewal, ds, fails).failure.None?
    ensures Done(Loop(st, p, renewal, ds, fails).state, renewal, ds)
    decreases |ds|
  {
    if ds != [] {
      var pr := Turn(st, p, renewal, ds[0], fails);
      var fin := Loop(pr.state, p, renewal, ds[1..], fails);
      assert Loop(st, p, renewal, ds, fails) == fin;
      TurnDone(st, p, renewal, ds[0], fails);
      DoneGrows(pr.state, fin.state, renewal, [ds[0]]);
      LoopCompletesDone(pr.state, p, renewal, ds[1..], fails);
      assert forall d :: d in ds ==> d == ds[0] || d in ds[1..];
    }
  }

  /** Re-running a loop that completed, from the log it left, changes
      nothing and mails nobody again. */
  lemma LoopIdempotent(st: RunState, p: Populated, renewal: int, ds: seq<nat>, fails: set<string>)
    requires Loop(st, p, renewal, ds, fails).failure.None?
    ensures var done := Loop(st, p, renewal, ds, fails).state;
            Loop(done, p, renewal, ds, fails) == Progress(done, None)
  {
    LoopCompletesDone(st, p, renewal, ds, fails);
    ReplayChangesNothing(Loop(st, p, renewal, ds, fails).state, p, renewal, ds, fails);
  }

  /** Once the fetch step is in the log, the run no longer depends on the
      store: it works on the snapshot it read the first time. */
  lemma SnapshotReused(st: RunState, subs: map<SubId, Subscription>, users: map<UserId, User>, id: SubId,
                       subs': map<SubId, Subscription>, users': map<UserId, User>, id': SubId,
                       renewal: int, ds: seq<nat>, fails: set<string>)
    requires FetchLabel in st.runs
    ensures Handler(st, subs, users, id, renewal, ds, fails) == Handler(st, subs', users', id', renewal, ds, fails)
  {
  }

  /** A first run for an active subscription whose renewal lies ahead and
      whose owner can be mailed completes, and does exactly what the plan
      for `REMINDERS` says. */
  lemma FreshRunFollowsPlan(st: RunState, subs: map<SubId, Subscription>, users: map<UserId, User>, id: SubId,
                            renewal: int, fails: set<string>)
    requires FetchLabel !in st.runs && Fresh(st, Reminders)
    requires id in subs && subs[id].status == Active && subs[id].user in users && users[subs[id].user].email != []
    requires renewal >= st.clock
    requires forall d :: d in Reminders ==> Label(d) !in fails
    ensures Handler(st, subs, users, id, renewal, Reminders, fails).exit == AllProcessed
    ensures Timeline(Handler(st, subs, users, id, renewal, Reminders, fails).state.events)
            == Timeline(st.events) + Plan(st.clock, renewal, Reminders)
  {
    var f := Fetch(st, subs, users, id);
    var p := Populate(users, subs[id]);
    forall d | d in Reminders
      ensures Label(d) !in f.state.runs
    {
      LabelNotFetch(d);
    }
    WorkflowLabelsHaveTemplates();
    LoopFollowsPlan(f.state, p, renewal, Reminders, fails);
  }

  /** A renewal at the current instant: every reminder date has passed, so
      the plan mails the four reminders at once, without a sleep. */
  lemma {:induction false} PlanAtRenewal(clock: int)
    ensures Plan(clock, clock, Reminders)
            == [Send(clock, Label(5)), Send(clock, Label(7)), Send(clock, Label(2)), Send(clock, Label(1))]
  {
    var ds := Reminders;
    assert ds[1..] == [7, 2, 1] && ds[1..][1..] == [2, 1] && ds[1..][1..][1..] == [1] && ds[1..][1..][1..][1..] == [];
    assert Plan(clock, clock, [1]) == PlanHead(clock, clock, 1);
    assert Plan(clock, clock, [2, 1]) == PlanHead(clock, clock, 2) + Plan(clock, clock, [1]);
    assert Plan(clock, clock, [7, 2, 1]) == PlanHead(clock, clock, 7) + Plan(clock, clock, [2, 1]);
  }

  /** The workflow as written reads `subscription.renewalDate`, a path the
      schema does not have, and `dayjs(undefined)` is the current instant.
      When the guard's own `dayjs()` reads the same instant, a first run
      passes the past-renewal guard and mails all four reminders at once. */
  lemma RenewalAtNowMailsAtOnce(st: RunState, subs: map<SubId, Subscription>, users: map<UserId, User>, id: SubId,
                                fails: set<string>)
    requires FetchLabel !in st.runs && Fresh(st, Reminders)
    requires id in subs && subs[id].status == Active && subs[id].user in users && users[subs[id].user].email != []
    requires forall d :: d in Reminders ==> Label(d) !in fails
    ensures Handler(st, subs, users, id, st.clock, Reminders, fails).exit == AllProcessed
    ensures Timeline(Handler(st, subs, users, id, st.clock, Reminders, fails).state.events)
            == Timeline(st.events)
               + [Send(st.clock, Label(5)), Send(st.clock, Label(7)), Send(st.clock, Label(2)), Send(st.clock, Label(1))]
  {
    FreshRunFollowsPlan(st, subs, users, id, st.clock, fails);
    PlanAtRenewal(st.clock);
  }
}
