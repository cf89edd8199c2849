/** The account endpoints: read a user, deactivate an account (soft
    delete), delete it permanently, and reactivate it within 30 days. */
module UserController {
  import opened Wrappers
  import opened Time
  import opened Api
  import opened UserModel
  import opened SubscriptionModel
  import opened Store

  // The messages the account endpoints answer with.
  const UserNotFound: string := "User not found"
  const PasswordRequired: string := "Password confirmation required"
  const InvalidPassword: string := "Invalid password confirmation"
  const ConfirmationRequired: string := "Please type \"DELETE MY ACCOUNT PERMANENTLY\" to confirm"
  const DeactivatedMessage: string := "Account deactivated successfully. You can reactivate within 30 days."
  const DeletedMessage: string := "Account and all associated data permanently deleted"
  const ReactivationExpired: string := "Reactivation period expired. Account permanently deleted"
  const ReactivatedMessage: string := "Account reactivated successfully"

  /** `GET /users/:id`: the account without its password. */
  function GetUser(db: Database, id: UserId): (r: Result<PublicUser, ApiError>)
    reads db
    ensures r.Ok? <==> id in db.users
    ensures id !in db.users ==> r == Err(NotFound(UserNotFound))
    ensures r.Ok? ==> r.value.name == db.users[id].name && r.value.email == db.users[id].email
                      && r.value.isActive == db.users[id].isActive
                      && r.value.deactivatedAt == db.users[id].deactivatedAt
                      && r.value.markedForDeletion == db.users[id].markedForDeletion
                      && r.value.deletionScheduledAt == db.users[id].deletionScheduledAt
  {
    if id !in db.users then Err(NotFound(UserNotFound)) else Ok(WithoutPassword(db.users[id]))
  }

  const ConfirmationPhrase: string := "DELETE MY ACCOUNT PERMANENTLY"

  /** The guards both account removals share, after the body checks: the
      account exists (404), it is the caller's own (403), and the password
      confirmation matches (401). `passwordMatches` is what `bcrypt.compare`
      answers for the given password and the stored hash. */
  function OwnerCheck(users: map<UserId, User>, caller: UserId, id: UserId, passwordMatches: bool, verb: string)
    : (r: Result<User, ApiError>)
    ensures r.Ok? <==> id in users && caller == id && passwordMatches
    ensures r.Ok? ==> r.value == users[id]
    ensures id !in users ==> r == Err(NotFound(UserNotFound))
    ensures id in users && caller != id ==> r == Err(Forbidden("Not authorized to " + verb + " this account"))
    ensures id in users && caller == id && !passwordMatches ==> r == Err(Unauthorized(InvalidPassword))
  {
    if id !in users then Err(NotFound(UserNotFound))
    else if caller != id then Err(Forbidden("Not authorized to " + verb + " this account"))
    else if !passwordMatches then Err(Unauthorized(InvalidPassword))
    else Ok(users[id])
  }

  /** The guards of `deactivateUser`, in the order it runs them. */
  function DeactivationCheck(users: map<UserId, User>, caller: UserId, id: UserId, password: Option<string>,
                             passwordMatches: bool): (r: Result<User, ApiError>)
    ensures r.Ok? <==> !Falsy(password) && id in users && caller == id && passwordMatches
    ensures Falsy(password) ==> r == Err(BadRequest(PasswordRequired))
    ensures !Falsy(password) ==> r == OwnerCheck(users, caller, id, passwordMatches, "deactivate")
  {
    if Falsy(password) then Err(BadRequest(PasswordRequired))
    else OwnerCheck(users, caller, id, passwordMatches, "deactivate")
  }

  /** The guards of `deleteUserPermanently`: the confirmation phrase is
      checked before the account is looked up. */
  function DeletionCheck(users: map<UserId, User>, caller: UserId, id: UserId, password: Option<string>,
                         confirmation: Option<string>, passwordMatches: bool): (r: Result<User, ApiError>)
    ensures r.Ok? <==> !Falsy(password) && confirmation == Some(ConfirmationPhrase)
                       && id in users && caller == id && passwordMatches
    ensures Falsy(password) ==> r == Err(BadRequest(PasswordRequired))
    ensures !Falsy(password) && confirmation != Some(ConfirmationPhrase) ==>
              r == Err(BadRequest(ConfirmationRequired))
    ensures !Falsy(password) && confirmation == Some(ConfirmationPhrase) ==>
              r == OwnerCheck(users, caller, id, passwordMatches, "delete")
  {
    if Falsy(password) then Err(BadRequest(PasswordRequired))
    else if Falsy(confirmation) || confirmation.value != ConfirmationPhrase then
      Err(BadRequest(ConfirmationRequired))
    else OwnerCheck(users, caller, id, passwordMatches, "delete")
  }

  /** What an account operation answers and the state of both collections
      after it. */
  datatype Outcome = Outcome(result: Result<string, ApiError>, users: map<UserId, User>, subs: map<SubId, Subscription>)

  /** Whether an operation left both collections as they were. */
  predicate Unchanged(o: Outcome, users: map<UserId, User>, subs: map<SubId, Subscription>)
  {
    o.users == users && o.subs == subs
  }

  /** The user record after a soft delete. */
  function Deactivated(u: User, now: int): User
  {
    u.(isActive := false, deactivatedAt := Some(now), markedForDeletion := false)
  }

  /** `deactivateUser` inside its transaction: the user update and the
      `updateMany` of the owner's subscriptions commit together, and a throw
      from either aborts both. */
  function Deactivation(users: map<UserId, User>, subs: map<SubId, Subscription>, caller: UserId, id: UserId,
                        password: Option<string>, passwordMatches: bool, now: int, fault: Fault): Outcome
  {
    match DeactivationCheck(users, caller, id, password, passwordMatches)
    case Err(e) => Outcome(Err(e), users, subs)
    case Ok(u) =>
      if fault != NoFault then Outcome(Err(StoreFailure), users, subs)
      else Outcome(Ok(DeactivatedMessage),
                   users[id := Deactivated(u, now)], SetStatusOwned(subs, id, Inactive))
  }

  /** A deactivation either fails and changes nothing, or succeeds and makes
      exactly its two writes: the caller's account is switched off (with the
      time, and any deletion mark cleared) and every subscription of theirs,
      whatever its status, becomes inactive; no other account or
      subscription changes. */
  lemma DeactivationAllOrNothing(users: map<UserId, User>, subs: map<SubId, Subscription>, caller: UserId,
                                 id: UserId, password: Option<string>, passwordMatches: bool, now: int, fault: Fault)
    ensures var o := Deactivation(users, subs, caller, id, password, passwordMatches, now, fault);
            && (o.result.Ok? <==>
                  DeactivationCheck(users, caller, id, password, passwordMatches).Ok? && fault == NoFault)
            && (o.result.Err? ==> Unchanged(o, users, subs))
            && (o.result.Ok? ==>
                  && id in users && o.users.Keys == users.Keys
                  && o.users[id] == users[id].(isActive := false, deactivatedAt := Some(now), markedForDeletion := false)
                  && (forall other :: other in users && other != id ==> o.users[other] == users[other])
                  && o.subs.Keys == subs.Keys
                  && (forall s :: s in subs && subs[s].user == id ==> o.subs[s] == subs[s].(status := Inactive))
                  && (forall s :: s in subs && subs[s].user != id ==> o.subs[s] == subs[s]))
  {
  }

  /** `DELETE /users/:id` inside its transaction: `deleteMany` of
      the owner's subscriptions, then the user record, committed together. */
  function Deletion(users: map<UserId, User>, subs: map<SubId, Subscription>, caller: UserId, id: UserId,
                    password: Option<string>, confirmation: Option<string>, passwordMatches: bool, fault: Fault)
    : Outcome
  {
    match DeletionCheck(users, caller, id, password, confirmation, passwordMatches)
    case Err(e) => Outcome(Err(e), users, subs)
    case Ok(_) =>
      if fault != NoFault then Outcome(Err(StoreFailure), users, subs)
      else Outcome(Ok(DeletedMessage), users - {id}, DeleteOwned(subs, id))
  }

  /** A permanent deletion either fails and changes nothing, or removes the
      account and every subscription it owns and nothing else. */
  lemma DeletionAllOrNothing(users: map<UserId, User>, subs: map<SubId, Subscription>, caller: UserId, id: UserId,
                             password: Option<string>, confirmation: Option<string>, passwordMatches: bool,
                             fault: Fault, n: nat)
    ensures var o := Deletion(users, subs, caller, id, password, confirmation, passwordMatches, fault);
            && (o.result.Ok? <==>
                  DeletionCheck(users, caller, id, password, confirmation, passwordMatches).Ok? && fault == NoFault)
            && (o.result.Err? ==> Unchanged(o, users, subs))
            && (o.result.Ok? ==>
                  && id in users && o.users.Keys == users.Keys - {id}
                  && (forall other :: other in o.users ==> o.users[other] == users[other])
                  && Find(o.subs, Query(id, None), n) == []
                  && (forall s :: s in o.subs ==> s in subs && subs[s].user != id)
                  && (forall s :: s in subs && subs[s].user != id ==> s in o.subs && o.subs[s] == subs[s]))
  {
    DeleteOwnedLeavesNone(subs, id, n);
  }

  /** The 30-day window: reactivation is refused exactly when the account
      was deactivated more than 30 days before `now` (a missing
      `deactivatedAt` never refuses). */
  predicate ReactivationAllowed(deactivatedAt: Option<int>, now: int)
  {
    !(deactivatedAt.Some? && deactivatedAt.value < now - 30 * DayMs)
  }

  /** The cutoff in elapsed time: at most 30 whole days is accepted, one
      millisecond more is not. */
  lemma ReactivationCutoff(t: int, now: int)
    ensures ReactivationAllowed(Some(t), now) <==> now - t <= 30 * DayMs
    ensures ReactivationAllowed(Some(now - 30 * DayMs), now)
    ensures !ReactivationAllowed(Some(now - 30 * DayMs - 1), now)
    ensures ReactivationAllowed(None, now)
  {
  }

  /** The user record after a reactivation. */
  function Reactivated(u: User): User
  {
    u.(isActive := true, deactivatedAt := None)
  }

  /** `reactivateUser` as written: no session, so the user update is kept
      when the following `updateMany` throws. The 404 and 400 are sent
      directly rather than thrown. */
  function Reactivation(users: map<UserId, User>, subs: map<SubId, Subscription>, id: UserId, now: int,
                        fault: Fault): Outcome
  {
    if id !in users then Outcome(Err(NotFound(UserNotFound)), users, subs)
    else if !ReactivationAllowed(users[id].deactivatedAt, now) then
      Outcome(Err(BadRequest(ReactivationExpired)), users, subs)
    else if fault == FailFirstWrite then Outcome(Err(StoreFailure), users, subs)
    else
      var users' := users[id := Reactivated(users[id])];
      if fault == FailSecondWrite then Outcome(Err(StoreFailure), users', subs)
      else Outcome(Ok(ReactivatedMessage), users', SetStatusOwned(subs, id, Active))
  }

  /** A successful reactivation switches the account back on and makes
      every subscription of its owner active again, also those that had
      expired or been cancelled; anything refused changes nothing. */
  lemma ReactivationEffect(users: map<UserId, User>, subs: map<SubId, Subscription>, id: UserId, now: int)
    ensures var o := Reactivation(users, subs, id, now, NoFault);
            && (o.result.Ok? <==> id in users && ReactivationAllowed(users[id].deactivatedAt, now))
            && (o.result.Err? ==> Unchanged(o, users, subs))
            && (o.result.Ok? ==>
                  && o.users.Keys == users.Keys && o.subs.Keys == subs.Keys
                  && o.users[id] == users[id].(isActive := true, deactivatedAt := None)
                  && (forall other :: other in users && other != id ==> o.users[other] == users[other])
                  && (forall s :: s in subs && subs[s].user == id ==> o.subs[s] == subs[s].(status := Active))
                  && (forall s :: s in subs && subs[s].user != id ==> o.subs[s] == subs[s]))
  {
  }

  /** The reactivation leaves a half-done state when the subscription
      update throws: the account is active again while its subscriptions
      stay inactive. */
  lemma ReactivationNotAtomic()
    ensures var u := User("alice", "alice@example.com", "password1", false, Some(0), false, None);
            var s := Subscription("Netflix", 10, USD, None, "card", Inactive, 0, Some(DayMs), Monthly, 7, None);
            var o := Reactivation(map[7 := u], map[0 := s], 7, DayMs, FailSecondWrite);
            o.result.Err? && o.users[7].isActive && o.subs[0].status == Inactive
  {
  }

  /** `reactivateUser` with both writes in one transaction, as the two
      other account operations do it. */
  function ReactivationAtomic(users: map<UserId, User>, subs: map<SubId, Subscription>, id: UserId, now: int,
                              fault: Fault): Outcome
  {
    if id !in users then Outcome(Err(NotFound(UserNotFound)), users, subs)
    else if !ReactivationAllowed(users[id].deactivatedAt, now) then
      Outcome(Err(BadRequest(ReactivationExpired)), users, subs)
    else if fault != NoFault then Outcome(Err(StoreFailure), users, subs)
    else Outcome(Ok(ReactivatedMessage), users[id := Reactivated(users[id])],
                 SetStatusOwned(subs, id, Active))
  }

  /** In one transaction a reactivation is all or nothing, and without a
      fault it does what the unguarded version does. */
  lemma ReactivationAtomicAllOrNothing(users: map<UserId, User>, subs: map<SubId, Subscription>, id: UserId,
                                       now: int, fault: Fault)
    ensures var o := ReactivationAtomic(users, subs, id, now, fault);
            && (o.result.Err? ==> Unchanged(o, users, subs))
            && (o.result.Ok? <==> id in users && ReactivationAllowed(users[id].deactivatedAt, now) && fault == NoFault)
    ensures ReactivationAtomic(users, subs, id, now, NoFault) == Reactivation(users, subs, id, now, NoFault)
  {
  }

  /** Deactivating and then reactivating within the window restores the
      account's active state and leaves every subscription of its owner
      active, including any cancelled before the deactivation. */
  lemma DeactivateThenReactivate(users: map<UserId, User>, subs: map<SubId, Subscription>, id: UserId,
                                 password: Option<string>, t: int, later: int)
    requires Deactivation(users, subs, id, id, password, true, t, NoFault).result.Ok?
    requires t <= later <= t + 30 * DayMs
    ensures var d := Deactivation(users, subs, id, id, password, true, t, NoFault);
            var o := ReactivationAtomic(d.users, d.subs, id, later, NoFault);
            && o.result.Ok? && o.users[id].isActive && o.users[id].deactivatedAt == None
            && o.subs == SetStatusOwned(subs, id, Active)
  {
    SetStatusOwnedLastWins(subs, id, Inactive, Active);
  }

  /** `deactivateUser`. The two writes are staged in the session and only
      reach the store at the commit; a throw aborts the session. */
  method DeactivateUser(db: Database, caller: UserId, id: UserId, password: Option<string>, passwordMatches: bool,
                        now: int, fault: Fault) returns (r: Result<string, ApiError>)
    requires db.Valid()
    modifies db
    ensures db.Valid() && db.nextSubId == old(db.nextSubId)
    ensures Outcome(r, db.users, db.subscriptions)
            == Deactivation(old(db.users), old(db.subscriptions), caller, id, password, passwordMatches, now, fault)
  {
    var check := DeactivationCheck(db.users, caller, id, password, passwordMatches);
    if check.Err? {
      return Err(check.error);
    }
    if fault == FailFirstWrite {
      return Err(StoreFailure);
    }
    var users := db.users[id := Deactivated(check.value, now)];
    if fault == FailSecondWrite {
      return Err(StoreFailure);
    }
    var subs := SetStatusOwned(db.subscriptions, id, Inactive);
    BulkUpdatesKeepPersisted(db.subscriptions, id, Inactive, now, db.nextSubId);
    db.Commit(users, subs);
    r := Ok(DeactivatedMessage);
  }

  /** `deleteUserPermanently`, staged in its session like `DeactivateUser`. */
  method DeleteUserPermanently(db: Database, caller: UserId, id: UserId, password: Option<string>,
                               confirmation: Option<string>, passwordMatches: bool, fault: Fault)
    returns (r: Result<string, ApiError>)
    requires db.Valid()
    modifies db
    ensures db.Valid() && db.nextSubId == old(db.nextSubId)
    ensures Outcome(r, db.users, db.subscriptions)
            == Deletion(old(db.users), old(db.subscriptions), caller, id, password, confirmation, passwordMatches, fault)
  {
    var check := DeletionCheck(db.users, caller, id, password, confirmation, passwordMatches);
    if check.Err? {
      return Err(check.error);
    }
    if fault == FailFirstWrite {
      return Err(StoreFailure);
    }
    var subs := DeleteOwned(db.subscriptions, id);
    if fault == FailSecondWrite {
      return Err(StoreFailure);
    }
    var users := db.users - {id};
    BulkUpdatesKeepPersisted(db.subscriptions, id, Inactive, 0, db.nextSubId);
    db.Commit(users, subs);
    r := Ok(DeletedMessage);
  }

  /** `reactivateUser` as written: each write reaches the store as soon as
      it is made. */
  method ReactivateUser(db: Database, id: UserId, now: int, fault: Fault) returns (r: Result<string, ApiError>)
    requires db.Valid()
    modifies db
    ensures db.Valid() && db.nextSubId == old(db.nextSubId)
    ensures Outcome(r, db.users, db.subscriptions) == Reactivation(old(db.users), old(db.subscriptions), id, now, fault)
  {
    if id !in db.users {
      return Err(NotFound(UserNotFound));
    }
    if db.users[id].deactivatedAt.Some? && db.users[id].deactivatedAt.value < now - 30 * DayMs {
      return Err(BadRequest(ReactivationExpired));
    }
    if fault == FailFirstWrite {
      return Err(StoreFailure);
    }
    db.users := db.users[id := db.users[id].(isActive := true, deactivatedAt := None)];
    if fault == FailSecondWrite {
      return Err(StoreFailure);
    }
    BulkUpdatesKeepPersisted(db.subscriptions, id, Active, now, db.nextSubId);
    db.WriteSubscriptions(SetStatusOwned(db.subscriptions, id, Active));
    r := Ok(ReactivatedMessage);
  }
}
