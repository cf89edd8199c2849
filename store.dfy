/** The two MongoDB collections the controllers use, and the queries and
    bulk updates they issue against them. */
module Store {
  import opened Wrappers
  import opened UserModel
  import opened SubscriptionModel

  /** A `find` filter on the subscriptions collection: by owner, and by
      status when one is given. */
  datatype Query = Query(user: UserId, status: Option<Status>)

  predicate Matches(s: Subscription, q: Query)
  {
    s.user == q.user && (q.status.None? || s.status == q.status.value)
  }

  predicate Increasing(ids: seq<SubId>)
  {
    forall i, j :: 0 <= i < j < |ids| ==> ids[i] < ids[j]
  }

  /** `Subscription.find(q)` over the documents whose ids lie below `n`, in
      insertion (id) order. */
  function Find(subs: map<SubId, Subscription>, q: Query, n: nat): (r: seq<SubId>)
    ensures Increasing(r)
    ensures forall id :: id in r <==> id < n && id in subs && Matches(subs[id], q)
  {
    if n == 0 then []
    else
      var front := Find(subs, q, n - 1);
      if n - 1 in subs && Matches(subs[n - 1], q) then
        assert forall i :: 0 <= i < |front| ==> front[i] in front;
        front + [n - 1]
      else front
  }

  /** The ids below `n` of the documents that match `q`. */
  function MatchingIds(subs: map<SubId, Subscription>, q: Query, n: nat): set<SubId>
  {
    set id | id in subs && id < n && Matches(subs[id], q)
  }

  /** `find` answers each matching document once: its length is the number
      of matching documents. */
  lemma {:induction false} FindCount(subs: map<SubId, Subscription>, q: Query, n: nat)
    ensures |Find(subs, q, n)| == |MatchingIds(subs, q, n)|
  {
    if n > 0 {
      FindCount(subs, q, n - 1);
      MatchingIdsStep(subs, q, n);
    }
  }

  /** One more id admits at most that id. */
  lemma MatchingIdsStep(subs: map<SubId, Subscription>, q: Query, n: nat)
    requires n > 0
    ensures n - 1 !in MatchingIds(subs, q, n - 1)
    ensures MatchingIds(subs, q, n) == if n - 1 in subs && Matches(subs[n - 1], q)
                                       then MatchingIds(subs, q, n - 1) + {n - 1}
                                       else MatchingIds(subs, q, n - 1)
  {
  }

  /** When every id lies below `n`, `find({ user: owner })` answers as many
      documents as the owner has. */
  lemma FindOwnedCount(subs: map<SubId, Subscription>, owner: UserId, n: nat)
    ensures IdsBelow(subs, n) ==>
              |Find(subs, Query(owner, None), n)| == |set id | id in subs && subs[id].user == owner|
  {
    FindCount(subs, Query(owner, None), n);
    if IdsBelow(subs, n) {
      assert MatchingIds(subs, Query(owner, None), n) == set id | id in subs && subs[id].user == owner;
    }
  }

  /** `updateMany({ user: owner }, { status })`: every document of the owner
      takes the status; no validator or hook runs. */
  function SetStatusOwned(subs: map<SubId, Subscription>, owner: UserId, st: Status): (r: map<SubId, Subscription>)
    ensures r.Keys == subs.Keys
    ensures forall id :: id in subs && subs[id].user == owner ==> r[id] == subs[id].(status := st)
    ensures forall id :: id in subs && subs[id].user != owner ==> r[id] == subs[id]
  {
    map id | id in subs :: if subs[id].user == owner then subs[id].(status := st) else subs[id]
  }

  /** `updateMany({ user: owner, status: "active" }, { status: "inactive",
      cancelledAt: now })`. */
  function CancelActive(subs: map<SubId, Subscription>, owner: UserId, now: int): (r: map<SubId, Subscription>)
    ensures r.Keys == subs.Keys
    ensures forall id :: id in subs && Matches(subs[id], Query(owner, Some(Active)))
              ==> r[id] == subs[id].(status := Inactive, cancelledAt := Some(now))
    ensures forall id :: id in subs && !Matches(subs[id], Query(owner, Some(Active))) ==> r[id] == subs[id]
  {
    map id | id in subs :: if Matches(subs[id], Query(owner, Some(Active)))
                           then subs[id].(status := Inactive, cancelledAt := Some(now)) else subs[id]
  }

  /** `deleteMany({ user: owner })`. */
  function DeleteOwned(subs: map<SubId, Subscription>, owner: UserId): (r: map<SubId, Subscription>)
    ensures forall id :: id in r <==> id in subs && subs[id].user != owner
    ensures forall id :: id in r ==> r[id] == subs[id]
  {
    map id | id in subs && subs[id].user != owner :: subs[id]
  }

  /** `populate("user", "name email")`: the owner's name and email, or
      `null` when the owner no longer exists. */
  function Populate(users: map<UserId, User>, s: Subscription): (r: Populated)
    ensures r.sub == s
    ensures r.owner.Some? <==> s.user in users
    ensures r.owner.Some? ==> r.owner.value == Contact(users[s.user].name, users[s.user].email)
  {
    Populated(s, if s.user in users then Some(Contact(users[s.user].name, users[s.user].email)) else None)
  }

  /** `populate("user", "name email")` over a found list of ids. */
  function PopulateAll(users: map<UserId, User>, subs: map<SubId, Subscription>, ids: seq<SubId>): (r: seq<Populated>)
    requires forall id :: id in ids ==> id in subs
    ensures |r| == |ids|
    ensures forall i :: 0 <= i < |ids| ==> r[i] == Populate(users, subs[ids[i]])
    ensures forall id :: id in ids ==> Populate(users, subs[id]) in r
  {
    var r := seq(|ids|, i requires 0 <= i < |ids| => Populate(users, subs[ids[i]]));
    assert forall id :: id in ids ==> exists i :: 0 <= i < |ids| && ids[i] == id && r[i] == Populate(users, subs[id]);
    r
  }

  predicate IdsBelow(subs: map<SubId, Subscription>, n: nat)
  {
    forall id :: id in subs ==> id < n
  }

  predicate AllPersisted(subs: map<SubId, Subscription>)
  {
    forall id :: id in subs ==> Persisted(subs[id])
  }

  /** Inserting a saved document under the next id keeps the store valid. */
  lemma InsertKeepsValid(subs: map<SubId, Subscription>, n: nat, s: Subscription)
    requires IdsBelow(subs, n) && AllPersisted(subs) && Persisted(s)
    ensures n !in subs
    ensures IdsBelow(subs[n := s], n + 1) && AllPersisted(subs[n := s])
  {
  }

  /** The database both collections live in. */
  class Database {
    var users: map<UserId, User>
    var subscriptions: map<SubId, Subscription>
    /** The id the next inserted subscription receives. */
    var nextSubId: SubId

    /** Every stored subscription has an id below `nextSubId` and has passed
        the schema's validators and the save hook. */
    ghost predicate Valid()
      reads this
    {
      IdsBelow(subscriptions, nextSubId) && AllPersisted(subscriptions)
    }

    constructor (users: map<UserId, User>)
      ensures this.users == users && subscriptions == map[] && nextSubId == 0
      ensures Valid()
    {
      this.users := users;
      subscriptions := map[];
      nextSubId := 0;
    }

    /** Writes both collections at once, as a committed transaction does. */
    method Commit(users: map<UserId, User>, subs: map<SubId, Subscription>)
      requires IdsBelow(subs, nextSubId) && AllPersisted(subs)
      modifies this
      ensures Valid() && nextSubId == old(nextSubId)
      ensures this.users == users && subscriptions == subs
    {
      this.users := users;
      subscriptions := subs;
    }

    /** Replaces the subscriptions collection, as a bulk write outside a
        transaction does. */
    method WriteSubscriptions(subs: map<SubId, Subscription>)
      requires IdsBelow(subs, nextSubId) && AllPersisted(subs)
      modifies this
      ensures Valid() && nextSubId == old(nextSubId) && users == old(users)
      ensures subscriptions == subs
    {
      subscriptions := subs;
    }

    /** Stores a saved document under the next id. */
    method Insert(s: Subscription) returns (id: SubId)
      requires Valid() && Persisted(s)
      modifies this
      ensures Valid() && users == old(users)
      ensures id == old(nextSubId) && id !in old(subscriptions)
      ensures subscriptions == old(subscriptions)[id := s] && nextSubId == id + 1
    {
      InsertKeepsValid(subscriptions, nextSubId, s);
      id := nextSubId;
      subscriptions := subscriptions[id := s];
      nextSubId := id + 1;
    }
  }

  // Properties of the bulk operations.

  /** Cancelling leaves the owner no active subscription, and only the
      owner's active subscriptions change. */
  lemma CancelActiveLeavesNoneActive(subs: map<SubId, Subscription>, owner: UserId, now: int, n: nat)
    ensures Find(CancelActive(subs, owner, now), Query(owner, Some(Active)), n) == []
  {
  }

  /** The documents a cancellation marks inactive are exactly the owner's
      active ones, and afterwards they are all listed among the owner's
      inactive ones. */
  lemma CancelledAreListedInactive(subs: map<SubId, Subscription>, owner: UserId, now: int, n: nat)
    ensures forall id :: id in Find(subs, Query(owner, Some(Active)), n)
              ==> id in Find(CancelActive(subs, owner, now), Query(owner, Some(Inactive)), n)
  {
  }

  /** The bulk updates preserve what every stored document satisfies. */
  lemma BulkUpdatesKeepPersisted(subs: map<SubId, Subscription>, owner: UserId, st: Status, now: int, n: nat)
    requires IdsBelow(subs, n) && AllPersisted(subs)
    ensures IdsBelow(SetStatusOwned(subs, owner, st), n) && AllPersisted(SetStatusOwned(subs, owner, st))
    ensures IdsBelow(CancelActive(subs, owner, now), n) && AllPersisted(CancelActive(subs, owner, now))
    ensures IdsBelow(DeleteOwned(subs, owner), n) && AllPersisted(DeleteOwned(subs, owner))
  {
  }

  /** A later `updateMany` of the owner's status overrides an earlier one. */
  lemma SetStatusOwnedLastWins(subs: map<SubId, Subscription>, owner: UserId, first: Status, second: Status)
    ensures SetStatusOwned(SetStatusOwned(subs, owner, first), owner, second) == SetStatusOwned(subs, owner, second)
  {
  }

  /** After `deleteMany` the owner has no subscription left, and no other
      owner lost one. */
  lemma DeleteOwnedLeavesNone(subs: map<SubId, Subscription>, owner: UserId, n: nat)
    ensures Find(DeleteOwned(subs, owner), Query(owner, None), n) == []
    ensures forall id :: id in subs && subs[id].user != owner ==> id in DeleteOwned(subs, owner)
  {
  }
}
