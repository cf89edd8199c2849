/** The subscription endpoints: create, list a user's subscriptions, update,
    delete, and cancel all of a user's active subscriptions. */
module SubscriptionController {
  import opened Wrappers
  import opened Api
  import opened UserModel
  import opened SubscriptionModel
  import opened SubscriptionUpdate
  import opened Store

  // The messages the subscription endpoints fail with.
  const NotAccountOwner: string := "You are not the owner of this account"
  const SubscriptionNotFound: string := "Subscription not found"
  const RestrictedField: string := "Attempted to update restricted field"
  const CancelForbidden: string := "Not authorized to cancel another user's subscriptions"

  /** The response of a creation: the stored document and the id of the
      reminder workflow run it started. */
  datatype Created = Created(id: SubId, subscription: Subscription, workflowRunId: string)

  /** `POST /subscriptions`. The document is built from the body with the
      caller as owner, validated, completed by the save hook and inserted;
      then the reminder workflow is triggered for its id. `parseDate` reads
      the date strings of the body. `runId` is the run
      id the workflow service answers with, None when the trigger throws: the
      inserted document then stays, without a reminder run. */
  method CreateSubscription(db: Database, caller: UserId, body: map<string, FieldValue>, now: int,
                            parseDate: DateParser, runId: Option<string>) returns (r: Result<Created, ApiError>)
    requires db.Valid()
    modifies db
    ensures db.Valid() && db.users == old(db.users)
    ensures Draft(body, caller, now, parseDate).Err? ==>
              r == Err(Draft(body, caller, now, parseDate).error)
              && db.subscriptions == old(db.subscriptions) && db.nextSubId == old(db.nextSubId)
    ensures Draft(body, caller, now, parseDate).Ok? ==>
              var saved := AfterSaveHook(Draft(body, caller, now, parseDate).value, now);
              && db.subscriptions == old(db.subscriptions)[old(db.nextSubId) := saved]
              && old(db.nextSubId) !in old(db.subscriptions)
              && db.nextSubId == old(db.nextSubId) + 1
              && r == (if runId.Some? then Ok(Created(old(db.nextSubId), saved, runId.value)) else Err(StoreFailure))
  {
    var draft := Draft(body, caller, now, parseDate);
    if draft.Err? {
      return Err(draft.error);
    }
    var doc := new SubscriptionDocument(draft.value);
    doc.PreSave(now);
    var saved := doc.Value();
    assert saved == AfterSaveHook(draft.value, now);
    SavedDraftPersisted(body, caller, now, parseDate);
    var id := db.Insert(saved);
    if runId.None? {
      return Err(StoreFailure);
    }
    r := Ok(Created(id, saved, runId.value));
  }

  /** `GET /subscriptions/user/:id`: every subscription of user `userId`,
      with its owner populated, for the user themself only. */
  function GetSubscription(db: Database, caller: UserId, userId: UserId): (r: Result<seq<Populated>, ApiError>)
    reads db
    ensures caller != userId ==> r == Err(Forbidden(NotAccountOwner))
    ensures caller == userId ==> r.Ok?
    ensures r.Ok? ==> forall i :: 0 <= i < |r.value| ==>
              r.value[i].sub.user == userId && r.value[i].sub in db.subscriptions.Values
    ensures r.Ok? ==> forall i :: 0 <= i < |r.value| ==> r.value[i] == Populate(db.users, r.value[i].sub)
    ensures r.Ok? && db.Valid() ==>
              forall id :: id in db.subscriptions && db.subscriptions[id].user == userId ==>
                Populate(db.users, db.subscriptions[id]) in r.value
    ensures r.Ok? && db.Valid() ==>
              |r.value| == |set id | id in db.subscriptions && db.subscriptions[id].user == userId|
  {
    FindOwnedCount(db.subscriptions, userId, db.nextSubId);
    if caller != userId then Err(Forbidden(NotAccountOwner))
    else
      Ok(PopulateAll(db.users, db.subscriptions, Find(db.subscriptions, Query(userId, None), db.nextSubId)))
  }

  /** The document an owner may change: 404 when it does not exist, 403
      when it belongs to someone else. */
  function Authorized(subs: map<SubId, Subscription>, caller: UserId, id: SubId, verb: string)
    : (r: Result<Subscription, ApiError>)
    ensures r.Ok? <==> id in subs && subs[id].user == caller
    ensures r.Ok? ==> r.value == subs[id]
    ensures id !in subs ==> r == Err(NotFound(SubscriptionNotFound))
    ensures id in subs && subs[id].user != caller ==>
              r == Err(Forbidden("Not authorized to " + verb + " this subscription"))
  {
    if id !in subs then Err(NotFound(SubscriptionNotFound))
    else if subs[id].user != caller then Err(Forbidden("Not authorized to " + verb + " this subscription"))
    else Ok(subs[id])
  }

  /** The stored document after `PUT /subscriptions/:id`, or the error. */
  function UpdateOutcome(subs: map<SubId, Subscription>, caller: UserId, id: SubId, body: map<string, FieldValue>)
    : (r: Result<Subscription, ApiError>)
    ensures r.Ok? ==> id in subs && subs[id].user == caller && OnlyAllowed(body)
    ensures r.Ok? ==> r.value.user == caller && r.value.startDate == subs[id].startDate
                      && r.value.renewDate == subs[id].renewDate && r.value.cancelledAt == subs[id].cancelledAt
    ensures r.Ok? && Persisted(subs[id]) ==> Persisted(r.value)
    ensures id in subs && subs[id].user == caller && !OnlyAllowed(body) ==>
              r == Err(BadRequest(RestrictedField))
    ensures id in subs && subs[id].user == caller && OnlyAllowed(body) ==> r == Patch(subs[id], PathsOf(body))
  {
    var s :- Authorized(subs, caller, id, "update");
    if !OnlyAllowed(body) then Err(BadRequest(RestrictedField))
    else Patch(s, PathsOf(body))
  }

  /** A body that passes the whitelist sets none of the dates, the owner or
      the cancellation time. */
  lemma AllowedBodyLeavesSchedule(body: map<string, FieldValue>)
    requires OnlyAllowed(body)
    ensures PathsOf(body).startDate.None? && PathsOf(body).renewDate.None? && PathsOf(body).cancelledAt.None?
    ensures "user" !in body
  {
    assert "startDate" !in AllowedUpdates && "renewDate" !in AllowedUpdates;
    assert "cancelledAt" !in AllowedUpdates && "user" !in AllowedUpdates;
  }

  /** `PUT /subscriptions/:id`: the document, changed as the body says, with
      its owner populated. */
  method UpdateSubscription(db: Database, caller: UserId, id: SubId, body: map<string, FieldValue>)
    returns (r: Result<Populated, ApiError>)
    requires db.Valid()
    modifies db
    ensures db.Valid() && db.users == old(db.users) && db.nextSubId == old(db.nextSubId)
    ensures var o := UpdateOutcome(old(db.subscriptions), caller, id, body);
            && (o.Err? ==> r == Err(o.error) && db.subscriptions == old(db.subscriptions))
            && (o.Ok? ==> r == Ok(Populate(db.users, o.value))
                          && db.subscriptions == old(db.subscriptions)[id := o.value])
  {
    var o := UpdateOutcome(db.subscriptions, caller, id, body);
    if o.Err? {
      return Err(o.error);
    }
    db.subscriptions := db.subscriptions[id := o.value];
    r := Ok(Populate(db.users, o.value));
  }

  /** The response of a deletion. */
  datatype Deleted = Deleted(deletedSubscriptionId: SubId, deletedSubscriptionName: string)

  /** `DELETE /subscriptions/:id`. */
  method DeleteSubscription(db: Database, caller: UserId, id: SubId) returns (r: Result<Deleted, ApiError>)
    requires db.Valid()
    modifies db
    ensures db.Valid() && db.users == old(db.users) && db.nextSubId == old(db.nextSubId)
    ensures var a := Authorized(old(db.subscriptions), caller, id, "delete");
            && (a.Err? ==> r == Err(a.error) && db.subscriptions == old(db.subscriptions))
            && (a.Ok? ==> r == Ok(Deleted(id, a.value.name))
                          && db.subscriptions == old(db.subscriptions) - {id})
  {
    var a := Authorized(db.subscriptions, caller, id, "delete");
    if a.Err? {
      return Err(a.error);
    }
    db.subscriptions := db.subscriptions - {id};
    r := Ok(Deleted(id, a.value.name));
  }

  /** The fields `select("name price frequency")` keeps. */
  datatype Summary = Summary(id: SubId, name: string, price: int, frequency: Frequency)

  function Summaries(subs: map<SubId, Subscription>, ids: seq<SubId>): (r: seq<Summary>)
    requires forall i :: 0 <= i < |ids| ==> ids[i] in subs
    ensures |r| == |ids|
    ensures forall i :: 0 <= i < |ids| ==>
              r[i] == Summary(ids[i], subs[ids[i]].name, subs[ids[i]].price, subs[ids[i]].frequency)
  {
    seq(|ids|, i requires 0 <= i < |ids| => Summary(ids[i], subs[ids[i]].name, subs[ids[i]].price, subs[ids[i]].frequency))
  }

  /** The response of `PUT /subscriptions/user/:id/cancel`: nothing was
      active (a count of 0), or how many were cancelled and the user's inactive
      subscriptions afterwards. */
  datatype CancelReport = NothingToCancel(cancelledCount: nat) | Cancelled(cancelledCount: nat, subscriptions: seq<Summary>)

  /** `PUT /subscriptions/user/:id/cancel`. The listing holds every
      inactive subscription of the user, including those that were inactive
      before this call. */
  method CancelAllSubscriptions(db: Database, caller: UserId, userId: UserId, now: int)
    returns (r: Result<CancelReport, ApiError>)
    requires db.Valid()
    modifies db
    ensures db.Valid() && db.users == old(db.users) && db.nextSubId == old(db.nextSubId)
    ensures caller != userId ==>
              r == Err(Forbidden(CancelForbidden))
              && db.subscriptions == old(db.subscriptions)
    ensures var active := Find(old(db.subscriptions), Query(userId, Some(Active)), old(db.nextSubId));
            caller == userId && active == [] ==> r == Ok(NothingToCancel(0)) && db.subscriptions == old(db.subscriptions)
    ensures var active := Find(old(db.subscriptions), Query(userId, Some(Active)), old(db.nextSubId));
            caller == userId && active != [] ==>
              && db.subscriptions == CancelActive(old(db.subscriptions), userId, now)
              && r.Ok? && r.value.Cancelled? && r.value.cancelledCount == |active|
              && r.value.subscriptions
                 == Summaries(db.subscriptions, Find(db.subscriptions, Query(userId, Some(Inactive)), db.nextSubId))
  {
    if caller != userId {
      return Err(Forbidden(CancelForbidden));
    }
    var active := Find(db.subscriptions, Query(userId, Some(Active)), db.nextSubId);
    if |active| == 0 {
      return Ok(NothingToCancel(0));
    }
    BulkUpdatesKeepPersisted(db.subscriptions, userId, Inactive, now, db.nextSubId);
    db.WriteSubscriptions(CancelActive(db.subscriptions, userId, now));
    var inactive := Find(db.subscriptions, Query(userId, Some(Inactive)), db.nextSubId);
    r := Ok(Cancelled(|active|, Summaries(db.subscriptions, inactive)));
  }

  /** The cancellation listing also carries subscriptions that were already
      inactive before the call, next to those it just cancelled. */
  lemma CancelListsEarlierInactive(subs: map<SubId, Subscription>, owner: UserId, now: int, n: nat, id: SubId)
    requires id < n && id in subs && Matches(subs[id], Query(owner, Some(Inactive)))
    ensures id !in Find(subs, Query(owner, Some(Active)), n)
    ensures id in Find(CancelActive(subs, owner, now), Query(owner, Some(Inactive)), n)
  {
  }
}
