/** Accounts: the store's login check (services/store.tsx:110-125), the new
    accounts `register` and `addUser` create (services/store.tsx:132-159),
    distributor approval (services/store.tsx:287-289) and the login page's
    input checks and role fallthrough (App.tsx:21-66). */
module Auth {
  import opened Types
  import opened Seqs

  datatype LoginOutcome =
    | NoAccount          // no account with that mobile and role: `login` returns false silently
    | WrongPassword      // alert "Incorrect password."
    | AwaitingApproval   // alert "Your distributor account is pending approval."
    | LoggedIn(user: User)

  /** The test `u => u.mobile === mobile && u.role === role`. */
  function AccountIs(mobile: string, role: Role): User -> bool {
    (u: User) => u.mobile == mobile && u.role == role
  }

  /** The test `u => u.mobile === mobile`. */
  function MobileIs(mobile: string): User -> bool {
    (u: User) => u.mobile == mobile
  }

  /** The test `u => u.id === id`. */
  function UserIs(id: string): User -> bool {
    (u: User) => u.id == id
  }

  /** `users.some(u => u.mobile === mobile)`. */
  function MobileTaken(users: seq<User>, mobile: string): (b: bool)
    ensures b <==> exists i :: 0 <= i < |users| && users[i].mobile == mobile
  {
    FirstIndex(users, MobileIs(mobile)) >= 0
  }

  ghost predicate UniqueMobiles(users: seq<User>) {
    forall i, j :: 0 <= i < j < |users| ==> users[i].mobile != users[j].mobile
  }

  /** What `login(mobile, password, role)` decides. It looks only at the
      first account with that mobile and role: an account whose password
      is not set never matches. */
  function LoginCheck(users: seq<User>, mobile: string, password: string, role: Role): (r: LoginOutcome)
    ensures r.NoAccount? <==> forall i :: 0 <= i < |users| ==> !(users[i].mobile == mobile && users[i].role == role)
    ensures r.LoggedIn? ==>
      r.user in users && r.user.mobile == mobile && r.user.role == role &&
      r.user.password == Some(password) && (role == DISTRIBUTOR ==> r.user.approved)
    ensures r.AwaitingApproval? ==> role == DISTRIBUTOR
  {
    var k := FirstIndex(users, AccountIs(mobile, role));
    if k < 0 then NoAccount
    else if users[k].password != Some(password) then WrongPassword
    else if role == DISTRIBUTOR && !users[k].approved then AwaitingApproval
    else LoggedIn(users[k])
  }

  /** When mobiles are unique, logging in as an account's own role fails
      only for the wrong password or an unapproved distributor... */
  lemma LoginOwnRole(users: seq<User>, i: int, password: string)
    requires UniqueMobiles(users) && 0 <= i < |users|
    ensures LoginCheck(users, users[i].mobile, password, users[i].role) ==
      if users[i].password != Some(password) then WrongPassword
      else if users[i].role == DISTRIBUTOR && !users[i].approved then AwaitingApproval
      else LoggedIn(users[i])
  {
    var k := FirstIndex(users, AccountIs(users[i].mobile, users[i].role));
    assert 0 <= k <= i;
  }

  /** ...and logging in as any other role finds no account. */
  lemma LoginOtherRole(users: seq<User>, i: int, password: string, role: Role)
    requires UniqueMobiles(users) && 0 <= i < |users| && role != users[i].role
    ensures LoginCheck(users, users[i].mobile, password, role) == NoAccount
  {
  }

  /** The account the login page signs in, if any: it tries CUSTOMER, then
      DISTRIBUTOR, then ADMIN, and stops at the first success (App.tsx:53). */
  function FallthroughLogin(users: seq<User>, mobile: string, password: string): (r: Option<User>)
    ensures r.Some? ==> r.value in users && r.value.mobile == mobile && r.value.password == Some(password)
    ensures r.None? <==>
      && !LoginCheck(users, mobile, password, CUSTOMER).LoggedIn?
      && !LoginCheck(users, mobile, password, DISTRIBUTOR).LoggedIn?
      && !LoginCheck(users, mobile, password, ADMIN).LoggedIn?
  {
    var c := LoginCheck(users, mobile, password, CUSTOMER);
    if c.LoggedIn? then Some(c.user)
    else
      var d := LoginCheck(users, mobile, password, DISTRIBUTOR);
      if d.LoggedIn? then Some(d.user)
      else
        var a := LoginCheck(users, mobile, password, ADMIN);
        if a.LoggedIn? then Some(a.user) else None
  }

  /** With unique mobiles the login page signs in the one account with that
      mobile exactly when its password matches and it is not a distributor
      awaiting approval, and signs in nobody otherwise. */
  lemma FallthroughFindsAccount(users: seq<User>, i: int, password: string)
    requires UniqueMobiles(users) && 0 <= i < |users|
    ensures FallthroughLogin(users, users[i].mobile, password) ==
      if users[i].password == Some(password) && (users[i].role == DISTRIBUTOR ==> users[i].approved)
      then Some(users[i]) else None
  {
    var u := users[i];
    LoginOwnRole(users, i, password);
    forall role | role != u.role
      ensures LoginCheck(users, u.mobile, password, role) == NoAccount
    {
      LoginOtherRole(users, i, password, role);
    }
  }

  /** An unknown mobile signs in nobody. */
  lemma FallthroughUnknownMobile(users: seq<User>, mobile: string, password: string)
    requires !MobileTaken(users, mobile)
    ensures FallthroughLogin(users, mobile, password) == None
  {
  }

  /** The account `register` appends: approved unless it is a distributor,
      with empty address and GST number (services/store.tsx:133-143). */
  function NewAccount(id: string, name: string, mobile: string, password: string, role: Role, territory: Option<string>): (u: User)
    ensures u.approved <==> role != DISTRIBUTOR
    ensures u.password == Some(password) && u.mobile == mobile && u.role == role
  {
    User(id, name, mobile, Some(password), role, role != DISTRIBUTOR, territory, Some(""), Some(""))
  }

  /** `addUser` stores an account whose password is missing or empty with
      the password '123456' (services/store.tsx:157). */
  function WithDefaultPassword(u: User): (r: User)
    ensures r.password.Some? && r.password.value != ""
    ensures r.(password := u.password) == u
    ensures u.password.Some? && u.password.value != "" ==> r == u
  {
    if u.password.None? || u.password.value == "" then u.(password := Some("123456")) else u
  }

  /** The rewrite `u => ({ ...u, approved: true })`. */
  function Approve(): User -> User {
    (u: User) => u.(approved := true)
  }

  /** `approveDistributor`: every account with that id becomes approved. */
  function ApproveAccount(users: seq<User>, id: string): seq<User> {
    MapWhere(users, UserIs(id), Approve())
  }

  /** A distributor who registers through the login page (which refuses a
      mobile already in use) cannot log in until approved, and can log in
      with the same password once `approveDistributor` has run. */
  lemma DistributorLoginNeedsApproval(users: seq<User>, id: string, name: string, mobile: string, password: string, territory: Option<string>)
    requires UniqueMobiles(users) && !MobileTaken(users, mobile)
    requires forall i :: 0 <= i < |users| ==> users[i].id != id
    ensures var registered := users + [NewAccount(id, name, mobile, password, DISTRIBUTOR, territory)];
      && FallthroughLogin(registered, mobile, password) == None
      && FallthroughLogin(ApproveAccount(registered, id), mobile, password)
         == Some(NewAccount(id, name, mobile, password, DISTRIBUTOR, territory).(approved := true))
  {
    var u := NewAccount(id, name, mobile, password, DISTRIBUTOR, territory);
    var registered := users + [u];
    assert UniqueMobiles(registered);
    FallthroughFindsAccount(registered, |users|, password);
    var approved := ApproveAccount(registered, id);
    assert approved[|users|] == u.(approved := true);
    assert forall i :: 0 <= i < |users| ==> approved[i] == users[i];
    assert UniqueMobiles(approved);
    FallthroughFindsAccount(approved, |users|, password);
  }

  datatype AuthInputError = InvalidMobile | MissingPassword

  /** JavaScript's `length`: the number of UTF-16 code units, two for a
      character outside the Basic Multilingual Plane and one otherwise. */
  function Utf16Length(s: string): (n: nat)
    ensures |s| <= n <= 2 * |s|
    ensures n == |s| <==> forall i :: 0 <= i < |s| ==> s[i] < '\U{10000}'
  {
    if s == [] then 0
    else (if s[0] >= '\U{10000}' then 2 else 1) + Utf16Length(s[1..])
  }

  /** The login page's checks before any store call (App.tsx:23-30): a mobile
      must be 10 UTF-16 code units long, then a password must be present. */
  function CheckAuthInput(mobile: string, password: string): (r: Option<AuthInputError>)
    ensures r.None? <==> Utf16Length(mobile) == 10 && password != ""
    ensures r == Some(InvalidMobile) <==> Utf16Length(mobile) != 10
    ensures (forall i :: 0 <= i < |mobile| ==> mobile[i] < '\U{10000}') ==>
      (r == Some(InvalidMobile) <==> |mobile| != 10)
  {
    if Utf16Length(mobile) != 10 then Some(InvalidMobile)
    else if password == "" then Some(MissingPassword)
    else None
  }
}
