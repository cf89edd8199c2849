/** `getUpcomingRenewals`: the caller's active subscriptions renewing within
    the coming week, soonest first, each with the whole days left, grouped
    under keys `in_<days>_days`. (No route reaches it: `/upcoming-renewal`
    is routed to the plain listing of the caller's subscriptions.) */
module Renewals {
  import opened Wrappers
  import opened Text
  import opened Time
  import opened UserModel
  import opened SubscriptionModel
  import opened Store

  /** The query filter: the owner's active subscriptions whose renewal lies
      between now and seven days from now, both ends included. */
  predicate Upcoming(s: Subscription, owner: UserId, now: int)
  {
    s.user == owner && s.status == Active && s.renewDate.Some?
    && now <= s.renewDate.value <= AddDays(now, 7)
  }

  /** A matching document's id and the renewal date it is sorted by. */
  datatype Due = Due(id: SubId, renewDate: int)

  /** The matching documents below id `n`, in id order. */
  function UpcomingDues(subs: map<SubId, Subscription>, owner: UserId, now: int, n: nat): (r: seq<Due>)
    ensures forall d :: d in r <==>
              d.id < n && d.id in subs && Upcoming(subs[d.id], owner, now) && d.renewDate == subs[d.id].renewDate.value
    ensures forall i, j :: 0 <= i < j < |r| ==> r[i].id < r[j].id
  {
    if n == 0 then []
    else
      var front := UpcomingDues(subs, owner, now, n - 1);
      if n - 1 in subs && Upcoming(subs[n - 1], owner, now) then
        assert forall i :: 0 <= i < |front| ==> front[i] in front;
        front + [Due(n - 1, subs[n - 1].renewDate.value)]
      else front
  }

  predicate SortedByRenewal(ds: seq<Due>)
  {
    forall i, j :: 0 <= i < j < |ds| ==> ds[i].renewDate <= ds[j].renewDate
  }

  /** `d` inserted after every entry that renews no later than it. */
  function InsertDue(ds: seq<Due>, d: Due): (r: seq<Due>)
    ensures multiset(r) == multiset(ds) + multiset{d}
  {
    if ds == [] || d.renewDate < ds[0].renewDate then [d] + ds
    else
      assert ds == [ds[0]] + ds[1..];
      [ds[0]] + InsertDue(ds[1..], d)
  }

  /** Every entry of `ds` renews no earlier than `b`. */
  predicate NotBefore(b: int, ds: seq<Due>)
  {
    forall i :: 0 <= i < |ds| ==> b <= ds[i].renewDate
  }

  lemma SortedCons(x: Due, ds: seq<Due>)
    requires NotBefore(x.renewDate, ds) && SortedByRenewal(ds)
    ensures SortedByRenewal([x] + ds)
  {
  }

  lemma {:induction false} InsertDueNotBefore(b: int, ds: seq<Due>, d: Due)
    requires NotBefore(b, ds) && b <= d.renewDate
    ensures NotBefore(b, InsertDue(ds, d))
  {
    if ds != [] && d.renewDate >= ds[0].renewDate {
      InsertDueNotBefore(b, ds[1..], d);
    }
  }

  /** Insertion keeps the order by renewal date. */
  lemma {:induction false} InsertDueSorted(ds: seq<Due>, d: Due)
    requires SortedByRenewal(ds)
    ensures SortedByRenewal(InsertDue(ds, d))
  {
    if ds == [] || d.renewDate < ds[0].renewDate {
      SortedCons(d, ds);
    } else {
      InsertDueSorted(ds[1..], d);
      InsertDueNotBefore(ds[0].renewDate, ds[1..], d);
      SortedCons(ds[0], InsertDue(ds[1..], d));
    }
  }

  /** No document appears twice. */
  predicate DistinctIds(ds: seq<Due>)
  {
    forall i, j :: 0 <= i < j < |ds| ==> ds[i].id != ds[j].id
  }

  /** Inserting a document that is not yet listed lists every document once. */
  lemma {:induction false} InsertDueDistinct(ds: seq<Due>, d: Due)
    requires DistinctIds(ds) && forall x :: x in ds ==> x.id != d.id
    ensures DistinctIds(InsertDue(ds, d))
  {
    if ds != [] && d.renewDate >= ds[0].renewDate {
      var rest := ds[1..];
      assert forall x :: x in rest ==> x in ds;
      InsertDueDistinct(rest, d);
      var t := InsertDue(rest, d);
      forall x | x in t
        ensures x.id != ds[0].id
      {
        assert x in multiset(t);
        if x != d {
          assert x in multiset(rest);
          var j :| 0 <= j < |rest| && rest[j] == x;
          assert ds[j + 1] == x;
        }
      }
      assert InsertDue(ds, d) == [ds[0]] + t;
    }
  }

  /** The next document of an id-ordered list is not among those before it. */
  lemma NextIsNew(found: seq<Due>, matching: seq<Due>, i: nat)
    requires i < |matching| && multiset(found) == multiset(matching[..i])
    requires forall a, b :: 0 <= a < b < |matching| ==> matching[a].id < matching[b].id
    ensures forall x :: x in found ==> x.id != matching[i].id
  {
    forall x | x in found
      ensures x.id != matching[i].id
    {
      assert x in multiset(matching[..i]);
      var j :| 0 <= j < i && matching[j] == x;
    }
  }

  /** `find(...).sort({ renewDate: 1 })`: the matching documents, each once,
      soonest renewal first. */
  method SortedUpcoming(subs: map<SubId, Subscription>, owner: UserId, now: int, n: nat) returns (found: seq<Due>)
    ensures multiset(found) == multiset(UpcomingDues(subs, owner, now, n))
    ensures SortedByRenewal(found)
    ensures DistinctIds(found)
  {
    var matching := UpcomingDues(subs, owner, now, n);
    found := [];
    var i := 0;
    while i < |matching|
      invariant 0 <= i <= |matching|
      invariant multiset(found) == multiset(matching[..i])
      invariant SortedByRenewal(found)
      invariant DistinctIds(found)
    {
      assert matching[..i + 1] == matching[..i] + [matching[i]];
      NextIsNew(found, matching, i);
      InsertDueDistinct(found, matching[i]);
      InsertDueSorted(found, matching[i]);
      found := InsertDue(found, matching[i]);
      i := i + 1;
    }
    assert matching[..i] == matching;
  }

  /** A matching document with its owner populated and the days left until
      its renewal. */
  datatype Renewal = Renewal(id: SubId, subscription: Populated, daysUntilRenewal: int)

  /** `x` is sorted no later than `y`: both are renewing and `x` renews no
      later. */
  predicate RenewsNoLater(x: Renewal, y: Renewal)
  {
    && x.subscription.sub.renewDate.Some? && y.subscription.sub.renewDate.Some?
    && x.subscription.sub.renewDate.value <= y.subscription.sub.renewDate.value
  }

  /** The order of the sorted query: soonest renewal first, each document
      once. */
  predicate InQueryOrder(g: seq<Renewal>)
  {
    forall i, j :: 0 <= i < j < |g| ==> g[i].id != g[j].id && RenewsNoLater(g[i], g[j])
  }

  /** The key a renewal is grouped under. */
  function DaysKey(days: int): string
  {
    "in_" + IntToString(days) + "_days"
  }

  /** The key of a renewal. */
  function KeyOf(r: Renewal): string
  {
    DaysKey(r.daysUntilRenewal)
  }

  /** The renewals among the first `n` of `rs` whose `key` is `k`, in their
      order in `rs`. The grouping lemmas below hold for any key function. */
  function WithKeyBelow(rs: seq<Renewal>, key: Renewal -> string, n: nat, k: string): seq<Renewal>
    requires n <= |rs|
  {
    if n == 0 then []
    else WithKeyBelow(rs, key, n - 1, k) + if key(rs[n - 1]) == k then [rs[n - 1]] else []
  }

  /** The renewals of `rs` whose `key` is `k`, in their order in `rs`. */
  function WithKey(rs: seq<Renewal>, key: Renewal -> string, k: string): seq<Renewal>
  {
    WithKeyBelow(rs, key, |rs|, k)
  }

  lemma {:induction false} WithKeyBelowMembers(rs: seq<Renewal>, key: Renewal -> string, n: nat, k: string)
    requires n <= |rs|
    ensures forall x :: x in WithKeyBelow(rs, key, n, k) ==> x in rs[..n] && key(x) == k
    ensures forall x :: x in rs[..n] && key(x) == k ==> x in WithKeyBelow(rs, key, n, k)
  {
    if n > 0 {
      WithKeyBelowMembers(rs, key, n - 1, k);
      assert rs[..n] == rs[..n - 1] + [rs[n - 1]];
    }
  }

  /** A group holds renewals of `rs` with its own key only, and every
      renewal of `rs` with that key. */
  lemma WithKeyMembers(rs: seq<Renewal>, k: string)
    ensures forall x :: x in WithKey(rs, KeyOf, k) ==> x in rs && DaysKey(x.daysUntilRenewal) == k
    ensures forall x :: x in rs && DaysKey(x.daysUntilRenewal) == k ==> x in WithKey(rs, KeyOf, k)
  {
    WithKeyBelowMembers(rs, KeyOf, |rs|, k);
    assert rs[..|rs|] == rs;
  }

  /** Taking out the renewals of one key keeps the query order. */
  lemma {:induction false} WithKeyBelowInOrder(rs: seq<Renewal>, key: Renewal -> string, n: nat, k: string)
    requires n <= |rs| && InQueryOrder(rs)
    ensures InQueryOrder(WithKeyBelow(rs, key, n, k))
  {
    if n > 0 {
      var w := WithKeyBelow(rs, key, n - 1, k);
      WithKeyBelowInOrder(rs, key, n - 1, k);
      if key(rs[n - 1]) == k {
        WithKeyBelowMembers(rs, key, n - 1, k);
        forall i | 0 <= i < |w|
          ensures w[i].id != rs[n - 1].id && RenewsNoLater(w[i], rs[n - 1])
        {
          assert w[i] in rs[..n - 1];
          var j :| 0 <= j < n - 1 && rs[j] == w[i];
        }
        assert WithKeyBelow(rs, key, n, k) == w + [rs[n - 1]];
      } else {
        assert WithKeyBelow(rs, key, n, k) == w;
      }
    }
  }

  lemma WithKeyBelowStep(rs: seq<Renewal>, key: Renewal -> string, i: nat, k: string)
    requires i < |rs|
    ensures WithKeyBelow(rs, key, i + 1, k)
            == WithKeyBelow(rs, key, i, k) + if key(rs[i]) == k then [rs[i]] else []
  {
  }

  /** The group of `k` in `groups` holds the renewals among the first `n` of
      `rs` whose `key` is `k`, and is missing when there is none. */
  predicate GroupedAt(groups: map<string, seq<Renewal>>, rs: seq<Renewal>, key: Renewal -> string, n: nat, k: string)
    requires n <= |rs|
  {
    && (k in groups <==> WithKeyBelow(rs, key, n, k) != [])
    && (k in groups ==> groups[k] == WithKeyBelow(rs, key, n, k))
  }

  /** `groups` with `r` pushed onto the group of `k`, the group made empty
      first when missing. */
  function Appended(groups: map<string, seq<Renewal>>, k: string, r: Renewal): map<string, seq<Renewal>>
  {
    var g := if k !in groups then groups[k := []] else groups;
    g[k := g[k] + [r]]
  }

  /** The groups after pushing the first `n` renewals of `rs`. */
  function GroupsBelow(rs: seq<Renewal>, key: Renewal -> string, n: nat): map<string, seq<Renewal>>
    requires n <= |rs|
  {
    if n == 0 then map[] else Appended(GroupsBelow(rs, key, n - 1), key(rs[n - 1]), rs[n - 1])
  }

  /** Pushing the renewals one by one files each key's renewals under it. */
  lemma {:induction false} GroupsBelowGrouped(rs: seq<Renewal>, key: Renewal -> string, n: nat, k: string)
    requires n <= |rs|
    ensures GroupedAt(GroupsBelow(rs, key, n), rs, key, n, k)
  {
    if n > 0 {
      GroupsBelowGrouped(rs, key, n - 1, k);
      WithKeyBelowStep(rs, key, n - 1, k);
    }
  }

  /** The grouping loop: one entry per key that some renewal has, holding
      that key's renewals in order. The caller passes `KeyOf`. */
  method GroupRenewals(rs: seq<Renewal>, key: Renewal -> string) returns (groups: map<string, seq<Renewal>>)
    ensures forall k :: k in groups <==> WithKey(rs, key, k) != []
    ensures forall k :: k in groups ==> groups[k] == WithKey(rs, key, k)
  {
    groups := map[];
    var i := 0;
    while i < |rs|
      invariant 0 <= i <= |rs|
      invariant groups == GroupsBelow(rs, key, i)
    {
      var k := key(rs[i]);
      if k !in groups {
        groups := groups[k := []];
      }
      groups := groups[k := groups[k] + [rs[i]]];
      i := i + 1;
    }
    forall k
      ensures k in groups <==> WithKey(rs, key, k) != []
      ensures k in groups ==> groups[k] == WithKey(rs, key, k)
    {
      GroupsBelowGrouped(rs, key, |rs|, k);
    }
  }

  /** The response: how many renewals there are, the groups, and the window
      searched. */
  datatype UpcomingReport = UpcomingReport(
    totalUpcoming: nat, renewals: map<string, seq<Renewal>>, rangeStart: int, rangeEnd: int)

  /** The renewal entry of a matching document. */
  function RenewalOf(users: map<UserId, User>, subs: map<SubId, Subscription>, d: Due, now: int): Renewal
    requires d.id in subs
  {
    Renewal(d.id, Populate(users, subs[d.id]), CeilDays(d.renewDate - now))
  }

  /** What the response says of a renewal listed under key `k`: it is the
      entry of an upcoming subscription of the owner, with between 0 and 7
      days left, filed under its own key. */
  predicate Reported(users: map<UserId, User>, subs: map<SubId, Subscription>, owner: UserId, now: int,
                     k: string, x: Renewal)
  {
    && x.id in subs && Upcoming(subs[x.id], owner, now)
    && x == RenewalOf(users, subs, Due(x.id, subs[x.id].renewDate.value), now)
    && 0 <= x.daysUntilRenewal <= 7
    && DaysKey(x.daysUntilRenewal) == k
  }

  /** `x` is listed under its own key. */
  predicate Listed(groups: map<string, seq<Renewal>>, x: Renewal)
  {
    DaysKey(x.daysUntilRenewal) in groups && x in groups[DaysKey(x.daysUntilRenewal)]
  }

  lemma SameMembers(a: seq<Due>, b: seq<Due>)
    requires multiset(a) == multiset(b)
    ensures forall x :: x in a <==> x in b
    ensures |a| == |b|
  {
    assert forall x :: x in a <==> x in multiset(a);
    assert forall x :: x in b <==> x in multiset(b);
    assert |a| == |multiset(a)|;
  }

  /** The entries of the matching documents, in the sorted order. */
  function EntriesOf(users: map<UserId, User>, subs: map<SubId, Subscription>, found: seq<Due>, now: int)
    : (rs: seq<Renewal>)
    requires forall d :: d in found ==> d.id in subs
    ensures |rs| == |found|
    ensures forall i :: 0 <= i < |found| ==> rs[i] == RenewalOf(users, subs, found[i], now)
  {
    seq(|found|, i requires 0 <= i < |found| => RenewalOf(users, subs, found[i], now))
  }

  /** The entries of the sorted query are in its order. */
  lemma EntriesInOrder(users: map<UserId, User>, subs: map<SubId, Subscription>, owner: UserId, now: int,
                       found: seq<Due>)
    requires forall d :: d in found ==>
               d.id in subs && Upcoming(subs[d.id], owner, now) && d.renewDate == subs[d.id].renewDate.value
    requires SortedByRenewal(found) && DistinctIds(found)
    ensures InQueryOrder(EntriesOf(users, subs, found, now))
  {
    var rs := EntriesOf(users, subs, found, now);
    forall i, j | 0 <= i < j < |rs|
      ensures rs[i].id != rs[j].id && RenewsNoLater(rs[i], rs[j])
    {
      assert found[i] in found && found[j] in found;
    }
  }

  /** Each group keeps the query order: soonest renewal first, each document
      once. */
  lemma GroupsInOrder(users: map<UserId, User>, subs: map<SubId, Subscription>, owner: UserId, now: int,
                      found: seq<Due>, groups: map<string, seq<Renewal>>)
    requires forall d :: d in found ==>
               d.id in subs && Upcoming(subs[d.id], owner, now) && d.renewDate == subs[d.id].renewDate.value
    requires SortedByRenewal(found) && DistinctIds(found)
    requires forall k :: k in groups ==> groups[k] == WithKey(EntriesOf(users, subs, found, now), KeyOf, k)
    ensures forall k :: k in groups ==> InQueryOrder(groups[k])
  {
    var rs := EntriesOf(users, subs, found, now);
    EntriesInOrder(users, subs, owner, now, found);
    forall k | k in groups
      ensures InQueryOrder(groups[k])
    {
      WithKeyBelowInOrder(rs, KeyOf, |rs|, k);
    }
  }

  /** Every listed renewal is reported truthfully. */
  lemma GroupsSound(users: map<UserId, User>, subs: map<SubId, Subscription>, owner: UserId, now: int,
                    found: seq<Due>, groups: map<string, seq<Renewal>>)
    requires forall d :: d in found ==>
               d.id in subs && Upcoming(subs[d.id], owner, now) && d.renewDate == subs[d.id].renewDate.value
    requires forall k :: k in groups ==> groups[k] == WithKey(EntriesOf(users, subs, found, now), KeyOf, k)
    ensures forall k, x :: k in groups && x in groups[k] ==> Reported(users, subs, owner, now, k, x)
  {
    var rs := EntriesOf(users, subs, found, now);
    forall k, x | k in groups && x in groups[k]
      ensures Reported(users, subs, owner, now, k, x)
    {
      WithKeyMembers(rs, k);
      assert x in rs;
      var i :| 0 <= i < |rs| && rs[i] == x;
      assert found[i] in found;
      CeilDaysWithinWeek(found[i].renewDate - now);
    }
  }

  /** Every matching document is listed. */
  lemma GroupsComplete(users: map<UserId, User>, subs: map<SubId, Subscription>, found: seq<Due>, now: int,
                       groups: map<string, seq<Renewal>>)
    requires forall d :: d in found ==> d.id in subs
    requires forall k :: k in groups <==> WithKey(EntriesOf(users, subs, found, now), KeyOf, k) != []
    requires forall k :: k in groups ==> groups[k] == WithKey(EntriesOf(users, subs, found, now), KeyOf, k)
    ensures forall d :: d in found ==> Listed(groups, RenewalOf(users, subs, d, now))
  {
    var rs := EntriesOf(users, subs, found, now);
    forall d | d in found
      ensures Listed(groups, RenewalOf(users, subs, d, now))
    {
      var i :| 0 <= i < |found| && found[i] == d;
      var x := rs[i];
      WithKeyMembers(rs, DaysKey(x.daysUntilRenewal));
      assert x in WithKey(rs, KeyOf, DaysKey(x.daysUntilRenewal));
    }
  }

  /** `getUpcomingRenewals`: every upcoming subscription of the caller is
      listed in the group of its days left, and nothing else is; each group
      lists its renewals soonest first, each once. */
  method GetUpcomingRenewals(db: Database, caller: UserId, now: int) returns (report: UpcomingReport)
    ensures report.totalUpcoming == |UpcomingDues(db.subscriptions, caller, now, db.nextSubId)|
    ensures report.rangeStart == now && report.rangeEnd == AddDays(now, 7)
    ensures forall k, x :: k in report.renewals && x in report.renewals[k] ==>
              Reported(db.users, db.subscriptions, caller, now, k, x)
    ensures forall d :: d in UpcomingDues(db.subscriptions, caller, now, db.nextSubId) ==>
              Listed(report.renewals, RenewalOf(db.users, db.subscriptions, d, now))
    ensures forall k :: k in report.renewals ==> InQueryOrder(report.renewals[k])
  {
    var subs := db.subscriptions;
    var users := db.users;
    var found := SortedUpcoming(subs, caller, now, db.nextSubId);
    SameMembers(found, UpcomingDues(subs, caller, now, db.nextSubId));
    var rs := EntriesOf(users, subs, found, now);
    var groups := GroupRenewals(rs, KeyOf);
    GroupsSound(users, subs, caller, now, found, groups);
    GroupsComplete(users, subs, found, now, groups);
    GroupsInOrder(users, subs, caller, now, found, groups);
    report := UpcomingReport(|found|, groups, now, AddDays(now, 7));
  }
}
