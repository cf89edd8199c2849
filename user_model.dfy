/** The User schema: its fields, their defaults, the setters Mongoose applies
    on assignment (`trim`, `lowercase`) and the validators. */
module UserModel {
  import opened Wrappers
  import opened Text
  import opened Api

  type UserId = nat

  /** A stored account. `deactivatedAt` and `deletionScheduledAt` are `null`
      (None) or a timestamp. */
  datatype User = User(
    name: string,
    email: string,
    password: string,
    isActive: bool,
    deactivatedAt: Option<int>,
    markedForDeletion: bool,
    deletionScheduledAt: Option<int>)

  const MinNameLength: nat := 5
  const MaxNameLength: nat := 20
  const MinPasswordLength: nat := 8

  /** `\w` in a JavaScript regular expression. */
  predicate IsWordChar(c: char)
  {
    'a' <= c <= 'z' || 'A' <= c <= 'Z' || '0' <= c <= '9' || c == '_'
  }

  predicate DoubleDotAt(d: string, k: nat)
    requires k + 1 < |d|
  {
    d[k] == '.' && d[k + 1] == '.'
  }

  /** The position of the last `c` in `s`, or -1. */
  function LastIndexOf(s: string, c: char): (i: int)
    ensures -1 <= i < |s|
    ensures i >= 0 ==> s[i] == c
    ensures forall k :: i < k < |s| ==> s[k] != c
  {
    if s == [] then -1
    else if s[|s| - 1] == c then |s| - 1
    else LastIndexOf(s[..|s| - 1], c)
  }

  /** The part after `@` matches `([\w-]+\.)+[\w-]{2,4}`: labels of word
      characters and dashes, separated by single dots, at least one dot, and
      a last label of two to four characters. */
  predicate IsEmailDomain(d: string)
  {
    && |d| > 0 && d[0] != '.'
    && (forall k :: 0 <= k < |d| ==> IsWordChar(d[k]) || d[k] == '-' || d[k] == '.')
    && (forall k :: 0 <= k < |d| - 1 ==> !DoubleDotAt(d, k))
    && var p := LastIndexOf(d, '.');
       p > 0 && 2 <= |d| - 1 - p <= 4
  }

  /** The email validator `^[\w.-]+@([\w-]+\.)+[\w-]{2,4}$`. Neither part
      may contain `@`, so the address splits at its last `@`. */
  predicate IsEmailAddress(s: string)
  {
    var a := LastIndexOf(s, '@');
    && a > 0
    && (forall k :: 0 <= k < a ==> IsWordChar(s[k]) || s[k] == '.' || s[k] == '-')
    && IsEmailDomain(s[a + 1..])
  }

  /** The setters of the email path, in the order the schema lists them. */
  function NormalizeEmail(email: string): (r: string)
    ensures IsTrimmed(r) && IsLower(r)
  {
    LowerKeepsTrimmed(Trim(email));
    ToLower(Trim(email))
  }

  /** What the schema guarantees of every stored user. */
  predicate WellFormed(u: User)
  {
    && IsTrimmed(u.name) && MinNameLength <= |u.name| <= MaxNameLength
    && IsTrimmed(u.email) && IsLower(u.email) && IsEmailAddress(u.email)
    && |u.password| >= MinPasswordLength
  }

  /** The validators and defaults, applied to values the setters have
      already normalised; the first failing path is reported. */
  function Validated(name: string, email: string, password: string): (r: Result<User, ApiError>)
    ensures r.Ok? <==>
              && MinNameLength <= |name| <= MaxNameLength
              && IsEmailAddress(email)
              && |password| >= MinPasswordLength
    ensures r.Ok? ==> r.value.name == name && r.value.email == email && r.value.password == password
    ensures r.Ok? ==> r.value.isActive && r.value.deactivatedAt == None
                      && !r.value.markedForDeletion && r.value.deletionScheduledAt == None
  {
    if !(MinNameLength <= |name| <= MaxNameLength) then Err(Invalid("name"))
    else if !IsEmailAddress(email) then Err(Invalid("email"))
    else if |password| < MinPasswordLength then Err(Invalid("password"))
    else Ok(User(name, email, password, true, None, false, None))
  }

  /** `User.create({ name, email, password })`: the setters, then the
      validators and defaults. */
  function NewUser(name: string, email: string, password: string): (r: Result<User, ApiError>)
    ensures r.Ok? <==>
              && MinNameLength <= |Trim(name)| <= MaxNameLength
              && IsEmailAddress(NormalizeEmail(email))
              && |password| >= MinPasswordLength
    ensures r.Ok? ==> WellFormed(r.value)
    ensures r.Ok? ==> r.value.isActive && r.value.deactivatedAt == None
                      && !r.value.markedForDeletion && r.value.deletionScheduledAt == None
  {
    Validated(Trim(name), NormalizeEmail(email), password)
  }

  lemma NormalizedIsFixed(e: string)
    requires IsTrimmed(e) && IsLower(e)
    ensures NormalizeEmail(e) == e
  {
    TrimmedIsFixed(e);
    LowerIsFixed(e);
  }

  /** Creating a user from the values of a well-formed user with default
      account state gives that user back. */
  lemma NewUserOfWellFormed(u: User)
    requires WellFormed(u)
    requires u.isActive && u.deactivatedAt == None && !u.markedForDeletion && u.deletionScheduledAt == None
    ensures NewUser(u.name, u.email, u.password) == Ok(u)
  {
    TrimmedIsFixed(u.name);
    NormalizedIsFixed(u.email);
    ValidatedOfWellFormed(u);
  }

  lemma ValidatedOfWellFormed(u: User)
    requires WellFormed(u)
    requires u.isActive && u.deactivatedAt == None && !u.markedForDeletion && u.deletionScheduledAt == None
    ensures Validated(u.name, u.email, u.password) == Ok(u)
  {
  }

  /** The setters are idempotent: saving a stored user's own values again
      yields the same record. */
  lemma NewUserStable(name: string, email: string, password: string)
    requires NewUser(name, email, password).Ok?
    ensures var u := NewUser(name, email, password).value;
            NewUser(u.name, u.email, u.password) == Ok(u)
  {
    NewUserOfWellFormed(NewUser(name, email, password).value);
  }

  /** A user as `select("-password")` returns it. */
  datatype PublicUser = PublicUser(
    name: string,
    email: string,
    isActive: bool,
    deactivatedAt: Option<int>,
    markedForDeletion: bool,
    deletionScheduledAt: Option<int>)

  function WithoutPassword(u: User): PublicUser
  {
    PublicUser(u.name, u.email, u.isActive, u.deactivatedAt, u.markedForDeletion, u.deletionScheduledAt)
  }
}
