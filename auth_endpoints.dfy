/** The hand-written endpoints of the server's authentication API that sit
    beside the framework's identity endpoints: the Google sign-in redirect and
    callback, forgot-password, the `/me` projection and logout.

    The user store is explicit: accounts by id, the unique email index the
    framework looks users up by, the (provider, key) -> user bindings of
    external logins, and each user's claim list. The two authentication
    cookies (the application session and the transient external principal
    left by the Google round trip) are part of the state too. */
module AuthEndpoints {
  import opened Wrappers

  const BasePath: string := "/api/auth"
  const LoginProvider: string := "Google"
  const PictureClaimType: string := "picture"

  const ExternalLoginFailed: string := "/login?error=external-login-failed"
  const NoEmail: string := "/login?error=no-email"
  const CreateFailed: string := "/login?error=create-failed"

  type UserId = string

  datatype Account = Account(id: UserId, userName: string, email: Option<string>, emailConfirmed: bool)

  datatype Claim = Claim(claimType: string, claimValue: string)

  datatype LoginKey = LoginKey(provider: string, providerKey: string)

  datatype Store = Store(
    users: map<UserId, Account>,
    byEmail: map<string, UserId>,
    logins: map<LoginKey, UserId>,
    claims: map<UserId, seq<Claim>>)

  /** The application cookie: who is signed in and whether the cookie is persistent. */
  datatype AppSession = AppSession(userId: UserId, persistent: bool)

  /** What the external cookie carries after the provider round trip: the
      email, name-identifier and picture claims, each possibly missing. */
  datatype ExternalPrincipal = ExternalPrincipal(
    email: Option<string>,
    nameIdentifier: Option<string>,
    picture: Option<string>)

  datatype ServerState = ServerState(store: Store, app: Option<AppSession>, external: Option<ExternalPrincipal>)

  /** The decisions the identity framework takes during the callback, which
      this model receives as inputs rather than inventing:
      - `signInRefused`: `ExternalLoginSignInAsync` does not succeed although a
        binding exists (a lockout, a sign-in that is not allowed, or a user
        who must still pass two-factor authentication);
      - `newUserId`: the id a newly created user receives;
      - `createSucceeds`: the framework's validators accept the new user. */
  datatype Framework = Framework(signInRefused: bool, newUserId: UserId, createSucceeds: bool)

  /** The store's consistency: ids match their keys, the email index and the
      accounts agree both ways (so an email names at most one account),
      bindings and claim lists belong to existing accounts. */
  ghost predicate ValidStore(s: Store) {
    && (forall id :: id in s.users ==> s.users[id].id == id)
    && (forall e :: e in s.byEmail ==> s.byEmail[e] in s.users && s.users[s.byEmail[e]].email == Some(e))
    && (forall id :: id in s.users && s.users[id].email.Some? ==>
          s.users[id].email.value in s.byEmail && s.byEmail[s.users[id].email.value] == id)
    && (forall k :: k in s.logins ==> s.logins[k] in s.users)
    && s.claims.Keys <= s.users.Keys
  }

  /** C#'s `string.IsNullOrEmpty`. */
  predicate IsNullOrEmpty(s: Option<string>) {
    s.None? || s.value == ""
  }

  /** `FindByEmailAsync`: the account the email index names. */
  function FindByEmail(s: Store, email: string): (r: Option<Account>)
    ensures r.Some? ==> email in s.byEmail && s.byEmail[email] in s.users && r.value == s.users[s.byEmail[email]]
    ensures ValidStore(s) && r.Some? ==> r.value.email == Some(email) && r.value.id in s.users
    ensures ValidStore(s) && r.None? ==> forall id :: id in s.users ==> s.users[id].email != Some(email)
  {
    if email in s.byEmail && s.byEmail[email] in s.users then Some(s.users[s.byEmail[email]]) else None
  }

  /** `GetClaimsAsync`: a user's claims. The model returns them in the
      order they were added; the database query itself does not order them. */
  function ClaimsOf(s: Store, id: UserId): seq<Claim> {
    if id in s.claims then s.claims[id] else []
  }

  predicate IsPicture(c: Claim) {
    c.claimType == PictureClaimType
  }

  /** `claims.FirstOrDefault(c => c.Type == "picture")`. */
  function FirstPictureClaim(cs: seq<Claim>): (r: Option<Claim>)
    ensures r.Some? ==> IsPicture(r.value) && r.value in cs
    ensures r.None? <==> forall i :: 0 <= i < |cs| ==> !IsPicture(cs[i])
    ensures r.Some? ==> exists i :: FirstPictureAt(cs, i) && cs[i] == r.value
    ensures |cs| > 0 && IsPicture(cs[0]) ==> r == Some(cs[0])
  {
    if cs == [] then None
    else if IsPicture(cs[0]) then
      assert FirstPictureAt(cs, 0);
      Some(cs[0])
    else
      var r := FirstPictureClaim(cs[1..]);
      if r.Some? then
        var i :| FirstPictureAt(cs[1..], i) && cs[1..][i] == r.value;
        assert FirstPictureAt(cs, i + 1);
        r
      else r
  }

  /** Index `i` holds a picture claim and no earlier index does. */
  predicate FirstPictureAt(cs: seq<Claim>, i: int) {
    0 <= i < |cs| && IsPicture(cs[i]) && forall j :: 0 <= j < i ==> !IsPicture(cs[j])
  }

  /** `RemoveClaimAsync`: the first claim equal to `c` is taken out. */
  function RemoveClaim(cs: seq<Claim>, c: Claim): (r: seq<Claim>)
    ensures c in cs ==> |r| == |cs| - 1
    ensures c in cs ==> exists i :: RemovedFirstAt(cs, c, r, i)
    ensures c !in cs ==> r == cs
  {
    if cs == [] then []
    else if cs[0] == c then
      assert RemovedFirstAt(cs, c, cs[1..], 0) by {
        assert cs[..0] == [];
      }
      cs[1..]
    else
      var rest := RemoveClaim(cs[1..], c);
      if c in cs[1..] then
        var i :| RemovedFirstAt(cs[1..], c, rest, i);
        assert RemovedFirstAt(cs, c, [cs[0]] + rest, i + 1) by {
          assert cs[..i + 1] == [cs[0]] + cs[1..][..i];
          assert cs[i + 2..] == cs[1..][i + 1..];
          assert c !in cs[..i + 1];
          assert [cs[0]] + rest == cs[..i + 1] + cs[i + 2..];
        }
        [cs[0]] + rest
      else
        [cs[0]] + rest
  }

  /** `r` is `cs` with the element at `i`, the first occurrence of `c`, taken out. */
  predicate RemovedFirstAt(cs: seq<Claim>, c: Claim, r: seq<Claim>, i: int) {
    0 <= i < |cs| && cs[i] == c && c !in cs[..i] && r == cs[..i] + cs[i + 1..]
  }

  function PictureCount(cs: seq<Claim>): nat {
    if cs == [] then 0 else (if IsPicture(cs[0]) then 1 else 0) + PictureCount(cs[1..])
  }

  /** The claims other than pictures, in order. */
  function OtherClaims(cs: seq<Claim>): seq<Claim> {
    if cs == [] then [] else (if IsPicture(cs[0]) then [] else [cs[0]]) + OtherClaims(cs[1..])
  }

  /** `UpdatePictureClaim` on one claim list: remove the first picture claim
      if there is one, then append the new picture claim. */
  function UpdatedPictureClaims(cs: seq<Claim>, picture: string): (r: seq<Claim>)
    ensures |r| > 0 && r[|r| - 1] == Claim(PictureClaimType, picture)
    ensures |r| == if FirstPictureClaim(cs).Some? then |cs| else |cs| + 1
  {
    match FirstPictureClaim(cs)
    case None => cs + [Claim(PictureClaimType, picture)]
    case Some(previous) => RemoveClaim(cs, previous) + [Claim(PictureClaimType, picture)]
  }

  lemma {:induction false} PictureCountAppend(a: seq<Claim>, b: seq<Claim>)
    ensures PictureCount(a + b) == PictureCount(a) + PictureCount(b)
    decreases |a|
  {
    if a == [] {
      assert a + b == b;
    } else {
      assert (a + b)[0] == a[0] && (a + b)[1..] == a[1..] + b;
      PictureCountAppend(a[1..], b);
    }
  }

  lemma {:induction false} OtherClaimsAppend(a: seq<Claim>, b: seq<Claim>)
    ensures OtherClaims(a + b) == OtherClaims(a) + OtherClaims(b)
    decreases |a|
  {
    if a == [] {
      assert a + b == b;
    } else {
      assert (a + b)[0] == a[0] && (a + b)[1..] == a[1..] + b;
      OtherClaimsAppend(a[1..], b);
    }
  }

  lemma {:induction false} FirstPictureAppend(a: seq<Claim>, b: seq<Claim>)
    ensures FirstPictureClaim(a + b) == if FirstPictureClaim(a).Some? then FirstPictureClaim(a) else FirstPictureClaim(b)
    decreases |a|
  {
    if a == [] {
      assert a + b == b;
    } else {
      assert (a + b)[0] == a[0] && (a + b)[1..] == a[1..] + b;
      FirstPictureAppend(a[1..], b);
    }
  }

  lemma CountsAppend(a: seq<Claim>, b: seq<Claim>)
    ensures PictureCount(a + b) == PictureCount(a) + PictureCount(b)
    ensures OtherClaims(a + b) == OtherClaims(a) + OtherClaims(b)
    ensures FirstPictureClaim(a + b) == if FirstPictureClaim(a).Some? then FirstPictureClaim(a) else FirstPictureClaim(b)
  {
    PictureCountAppend(a, b);
    OtherClaimsAppend(a, b);
    FirstPictureAppend(a, b);
  }

  /** Removing the first picture claim lowers the picture count by one and
      leaves every other claim where it was. */
  lemma {:induction false} RemoveFirstPicture(cs: seq<Claim>)
    requires FirstPictureClaim(cs).Some?
    ensures PictureCount(RemoveClaim(cs, FirstPictureClaim(cs).value)) == PictureCount(cs) - 1
    ensures OtherClaims(RemoveClaim(cs, FirstPictureClaim(cs).value)) == OtherClaims(cs)
    decreases |cs|
  {
    var c := FirstPictureClaim(cs).value;
    if !IsPicture(cs[0]) {
      RemoveFirstPicture(cs[1..]);
      assert RemoveClaim(cs, c) == [cs[0]] + RemoveClaim(cs[1..], c);
      CountsAppend([cs[0]], RemoveClaim(cs[1..], c));
    }
  }

  /** The picture claim is upserted: afterwards there is one picture claim
      more only if there was none, the other claims are untouched, and a
      user who held at most one picture claim holds exactly one, carrying
      the new value, which is also the one `/me` reports. */
  lemma UpdatePictureUpserts(cs: seq<Claim>, picture: string)
    ensures PictureCount(UpdatedPictureClaims(cs, picture)) == if PictureCount(cs) == 0 then 1 else PictureCount(cs)
    ensures OtherClaims(UpdatedPictureClaims(cs, picture)) == OtherClaims(cs)
    ensures PictureCount(cs) <= 1 ==>
              PictureCount(UpdatedPictureClaims(cs, picture)) == 1
              && FirstPictureClaim(UpdatedPictureClaims(cs, picture)) == Some(Claim(PictureClaimType, picture))
  {
    var added := [Claim(PictureClaimType, picture)];
    assert PictureCount(added) == 1 && OtherClaims(added) == [];
    assert FirstPictureClaim(added) == Some(added[0]);
    match FirstPictureClaim(cs)
    case None =>
      NoPictureCount(cs);
      CountsAppend(cs, added);
    case Some(previous) =>
      RemoveFirstPicture(cs);
      CountsAppend(RemoveClaim(cs, previous), added);
      if PictureCount(cs) <= 1 {
        NoPictureCount'(RemoveClaim(cs, previous));
      }
  }

  lemma {:induction false} NoPictureCount(cs: seq<Claim>)
    requires FirstPictureClaim(cs).None?
    ensures PictureCount(cs) == 0
    decreases |cs|
  {
    if cs != [] {
      NoPictureCount(cs[1..]);
    }
  }

  lemma {:induction false} NoPictureCount'(cs: seq<Claim>)
    requires PictureCount(cs) == 0
    ensures FirstPictureClaim(cs).None?
    decreases |cs|
  {
    if cs != [] {
      NoPictureCount'(cs[1..]);
    }
  }

  /** The store after `UpdatePictureClaim` for user `id`. */
  function WithPicture(s: Store, id: UserId, picture: string): Store {
    s.(claims := s.claims[id := UpdatedPictureClaims(ClaimsOf(s, id), picture)])
  }

  /** `CreateAsync` of the account the callback builds for a first-time
      Google user: user name and email are the email, and the email counts
      as confirmed. */
  function NewAccount(id: UserId, email: string): Account {
    Account(id, email, Some(email), true)
  }

  function AddUser(s: Store, a: Account): (r: Store)
    requires a.email.Some?
    ensures FindByEmail(r, a.email.value) == Some(a)
    ensures forall id :: id in s.users && id != a.id ==> id in r.users && r.users[id] == s.users[id]
    ensures r.logins == s.logins && r.claims == s.claims
  {
    s.(users := s.users[a.id := a], byEmail := s.byEmail[a.email.value := a.id])
  }

  /** `AddLoginAsync`: a binding that already exists (for any user) is not
      replaced; the call then fails and the store is unchanged. */
  function AddLogin(s: Store, key: LoginKey, id: UserId): (r: Store)
    ensures key in r.logins && (key !in s.logins ==> r.logins[key] == id)
    ensures forall k :: k in s.logins ==> k in r.logins && r.logins[k] == s.logins[k]
    ensures r.users == s.users && r.byEmail == s.byEmail && r.claims == s.claims
  {
    if key in s.logins then s else s.(logins := s.logins[key := id])
  }

  datatype CallbackResult = CallbackResult(state: ServerState, location: string)

  /** The `/google-callback` handler as a function of the state before the
      request: the new state and the redirect target. */
  function GoogleCallback(st: ServerState, returnUrl: Option<string>, fw: Framework): (r: CallbackResult)
    ensures r.state != st ==> r.location == returnUrl.GetOr("/") && r.state.external.None?
    ensures forall id :: id in st.store.users ==> id in r.state.store.users && r.state.store.users[id] == st.store.users[id]
    ensures forall k :: k in st.store.logins ==> k in r.state.store.logins && r.state.store.logins[k] == st.store.logins[k]
  {
    if st.external.None? then CallbackResult(st, ExternalLoginFailed)
    else
      var p := st.external.value;
      if IsNullOrEmpty(p.email) || IsNullOrEmpty(p.nameIdentifier) then CallbackResult(st, NoEmail)
      else
        var email := p.email.value;
        var key := LoginKey(LoginProvider, p.nameIdentifier.value);
        var target := returnUrl.GetOr("/");
        if key in st.store.logins && !fw.signInRefused then
          // signed in through the binding; the picture goes to the user found by email
          var found := FindByEmail(st.store, email);
          var s1 := if found.Some? && !IsNullOrEmpty(p.picture) then WithPicture(st.store, found.value.id, p.picture.value)
                    else st.store;
          CallbackResult(ServerState(s1, Some(AppSession(st.store.logins[key], true)), None), target)
        else
          var found := FindByEmail(st.store, email);
          if found.None? && !(fw.createSucceeds && fw.newUserId !in st.store.users) then
            CallbackResult(st, CreateFailed)
          else
            var id := if found.Some? then found.value.id else fw.newUserId;
            var s1 := if found.Some? then st.store else AddUser(st.store, NewAccount(fw.newUserId, email));
            var s2 := if IsNullOrEmpty(p.picture) then s1 else WithPicture(s1, id, p.picture.value);
            var s3 := AddLogin(s2, key, id);
            CallbackResult(ServerState(s3, Some(AppSession(id, true)), None), target)
  }

  /** Authentication failing, or a principal without email or name
      identifier, redirects to the matching error page and changes nothing,
      not even the external cookie. */
  lemma CallbackRejectsIncompletePrincipal(st: ServerState, returnUrl: Option<string>, fw: Framework)
    requires st.external.None? || IsNullOrEmpty(st.external.value.email) || IsNullOrEmpty(st.external.value.nameIdentifier)
    ensures GoogleCallback(st, returnUrl, fw).state == st
    ensures GoogleCallback(st, returnUrl, fw).location == if st.external.None? then ExternalLoginFailed else NoEmail
  {
  }

  /** Sign-in through an existing binding creates no user and no binding; it
      signs in the bound user persistently, clears the external cookie, and
      upserts a non-empty picture into the claims of the user the email
      names; every other claim list, and all of them when there is no
      picture or no such user, stays as it was. */
  lemma CallbackExistingBinding(st: ServerState, returnUrl: Option<string>, fw: Framework)
    requires ValidStore(st.store)
    requires st.external.Some? && !IsNullOrEmpty(st.external.value.email) && !IsNullOrEmpty(st.external.value.nameIdentifier)
    requires LoginKey(LoginProvider, st.external.value.nameIdentifier.value) in st.store.logins && !fw.signInRefused
    ensures var r := GoogleCallback(st, returnUrl, fw);
      && r.state.store.users == st.store.users
      && r.state.store.byEmail == st.store.byEmail
      && r.state.store.logins == st.store.logins
      && r.state.app == Some(AppSession(st.store.logins[LoginKey(LoginProvider, st.external.value.nameIdentifier.value)], true))
      && r.state.external.None?
      && r.location == returnUrl.GetOr("/")
      && (var found := FindByEmail(st.store, st.external.value.email.value);
          var picture := st.external.value.picture;
          forall id :: ClaimsOf(r.state.store, id) ==
            if found.Some? && id == found.value.id && !IsNullOrEmpty(picture)
            then UpdatedPictureClaims(ClaimsOf(st.store, id), picture.value)
            else ClaimsOf(st.store, id))
  {
  }

  /** With no binding and no account for the email, exactly one account is
      created, with user name and email set to the email and the email
      confirmed, and the Google binding points at it. */
  lemma CallbackNewAccount(st: ServerState, returnUrl: Option<string>, fw: Framework)
    requires ValidStore(st.store)
    requires st.external.Some? && !IsNullOrEmpty(st.external.value.email) && !IsNullOrEmpty(st.external.value.nameIdentifier)
    requires LoginKey(LoginProvider, st.external.value.nameIdentifier.value) !in st.store.logins
    requires FindByEmail(st.store, st.external.value.email.value).None?
    requires fw.createSucceeds && fw.newUserId !in st.store.users
    ensures var email := st.external.value.email.value;
      var key := LoginKey(LoginProvider, st.external.value.nameIdentifier.value);
      var r := GoogleCallback(st, returnUrl, fw);
      && r.state.store.users == st.store.users[fw.newUserId := Account(fw.newUserId, email, Some(email), true)]
      && |r.state.store.users| == |st.store.users| + 1
      && r.state.store.logins == st.store.logins[key := fw.newUserId]
      && r.state.app == Some(AppSession(fw.newUserId, true))
      && r.location == returnUrl.GetOr("/")
  {
  }

  /** A failed account creation redirects to the create-failed page, with no
      binding added and nobody signed in. */
  lemma CallbackCreateFails(st: ServerState, returnUrl: Option<string>, fw: Framework)
    requires st.external.Some? && !IsNullOrEmpty(st.external.value.email) && !IsNullOrEmpty(st.external.value.nameIdentifier)
    requires LoginKey(LoginProvider, st.external.value.nameIdentifier.value) !in st.store.logins
    requires FindByEmail(st.store, st.external.value.email.value).None?
    requires !fw.createSucceeds
    ensures GoogleCallback(st, returnUrl, fw) == CallbackResult(st, CreateFailed)
  {
  }

  /** With no binding but an account for the email, no account is created,
      the binding (Google, key) is added to that account, which is signed in,
      and a non-empty picture is upserted into that account's claims alone. */
  lemma CallbackLinksByEmail(st: ServerState, returnUrl: Option<string>, fw: Framework)
    requires st.external.Some? && !IsNullOrEmpty(st.external.value.email) && !IsNullOrEmpty(st.external.value.nameIdentifier)
    requires LoginKey(LoginProvider, st.external.value.nameIdentifier.value) !in st.store.logins
    requires FindByEmail(st.store, st.external.value.email.value).Some?
    ensures var u := FindByEmail(st.store, st.external.value.email.value).value;
      var key := LoginKey(LoginProvider, st.external.value.nameIdentifier.value);
      var r := GoogleCallback(st, returnUrl, fw);
      && r.state.store.users == st.store.users
      && r.state.store.logins == st.store.logins[key := u.id]
      && r.state.app == Some(AppSession(u.id, true))
      && r.state.external.None?
      && r.location == returnUrl.GetOr("/")
      && (var picture := st.external.value.picture;
          forall id :: ClaimsOf(r.state.store, id) ==
            if id == u.id && !IsNullOrEmpty(picture)
            then UpdatedPictureClaims(ClaimsOf(st.store, id), picture.value)
            else ClaimsOf(st.store, id))
  {
  }

  /** When the framework refuses the sign-in although the binding exists,
      the handler falls through: `AddLoginAsync` fails on the existing
      binding, its result is ignored, and the user the email names is signed
      in anyway (who need not be the user the binding names). */
  lemma CallbackRefusedSignInStillSignsIn(st: ServerState, returnUrl: Option<string>, fw: Framework)
    requires st.external.Some? && !IsNullOrEmpty(st.external.value.email) && !IsNullOrEmpty(st.external.value.nameIdentifier)
    requires LoginKey(LoginProvider, st.external.value.nameIdentifier.value) in st.store.logins && fw.signInRefused
    requires FindByEmail(st.store, st.external.value.email.value).Some?
    ensures var u := FindByEmail(st.store, st.external.value.email.value).value;
      var r := GoogleCallback(st, returnUrl, fw);
      && r.state.store.users == st.store.users
      && r.state.store.logins == st.store.logins
      && r.state.app == Some(AppSession(u.id, true))
      && r.location == returnUrl.GetOr("/")
  {
  }

  /** Every outcome is either one of the three error redirects with the state
      untouched, or a persistent sign-in of an existing account, the external
      cookie cleared and a redirect to the return URL (or "/"). */
  lemma CallbackOutcomes(st: ServerState, returnUrl: Option<string>, fw: Framework)
    requires ValidStore(st.store)
    ensures var r := GoogleCallback(st, returnUrl, fw);
      || (r.state == st && r.location in {ExternalLoginFailed, NoEmail, CreateFailed})
      || (&& r.state.app.Some? && r.state.app.value.persistent
          && r.state.app.value.userId in r.state.store.users
          && r.state.external.None?
          && r.location == returnUrl.GetOr("/"))
    ensures ValidStore(GoogleCallback(st, returnUrl, fw).state.store)
  {
    CallbackPreservesValid(st, returnUrl, fw);
  }

  lemma WithPicturePreservesValid(s: Store, id: UserId, picture: string)
    requires ValidStore(s) && id in s.users
    ensures ValidStore(WithPicture(s, id, picture))
  {
  }

  lemma AddUserPreservesValid(s: Store, id: UserId, email: string)
    requires ValidStore(s) && id !in s.users && FindByEmail(s, email).None?
    ensures ValidStore(AddUser(s, NewAccount(id, email)))
  {
    var s' := AddUser(s, NewAccount(id, email));
    assert email !in s.byEmail;
    forall e | e in s'.byEmail
      ensures s'.byEmail[e] in s'.users && s'.users[s'.byEmail[e]].email == Some(e)
    {
      if e != email {
        assert s'.byEmail[e] == s.byEmail[e] != id;
      }
    }
  }

  lemma AddLoginPreservesValid(s: Store, key: LoginKey, id: UserId)
    requires ValidStore(s) && id in s.users
    ensures ValidStore(AddLogin(s, key, id))
  {
  }

  /** The callback keeps the store consistent. */
  lemma CallbackPreservesValid(st: ServerState, returnUrl: Option<string>, fw: Framework)
    requires ValidStore(st.store)
    ensures ValidStore(GoogleCallback(st, returnUrl, fw).state.store)
  {
    if st.external.Some? && !IsNullOrEmpty(st.external.value.email) && !IsNullOrEmpty(st.external.value.nameIdentifier) {
      var p := st.external.value;
      var email := p.email.value;
      var key := LoginKey(LoginProvider, p.nameIdentifier.value);
      var found := FindByEmail(st.store, email);
      if key in st.store.logins && !fw.signInRefused {
        if found.Some? && !IsNullOrEmpty(p.picture) {
          WithPicturePreservesValid(st.store, found.value.id, p.picture.value);
        }
      } else if found.Some? || (fw.createSucceeds && fw.newUserId !in st.store.users) {
        var id := if found.Some? then found.value.id else fw.newUserId;
        var s1 := if found.Some? then st.store else AddUser(st.store, NewAccount(fw.newUserId, email));
        if found.None? {
          AddUserPreservesValid(st.store, fw.newUserId, email);
        }
        assert ValidStore(s1) && id in s1.users;
        var s2 := if IsNullOrEmpty(p.picture) then s1 else WithPicture(s1, id, p.picture.value);
        if !IsNullOrEmpty(p.picture) {
          WithPicturePreservesValid(s1, id, p.picture.value);
        }
        AddLoginPreservesValid(s2, key, id);
      }
    }
  }

  datatype UserInfo = UserInfo(email: string, isEmailConfirmed: bool, picture: Option<string>)

  datatype MeResponse = Unauthorized | MeOk(info: UserInfo)

  /** `GET /me`: 401 unless the session names an existing account; otherwise
      the email ("" when the account has none), the confirmed flag and the
      first picture claim's value. */
  function Me(st: ServerState): (r: MeResponse)
    ensures r.MeOk? <==> st.app.Some? && st.app.value.userId in st.store.users
    ensures r.MeOk? ==>
      var user := st.store.users[st.app.value.userId];
      var cs := ClaimsOf(st.store, st.app.value.userId);
      && r.info.email == (if user.email.Some? then user.email.value else "")
      && r.info.isEmailConfirmed == user.emailConfirmed
      && (r.info.picture.None? <==> forall i :: 0 <= i < |cs| ==> !IsPicture(cs[i]))
      && (r.info.picture.Some? ==> exists i :: FirstPictureAt(cs, i) && cs[i].claimValue == r.info.picture.value)
      && (r.info.picture.Some? ==> r.info.picture.value == FirstPictureClaim(cs).value.claimValue)
  {
    if st.app.None? then Unauthorized
    else if st.app.value.userId !in st.store.users then Unauthorized
    else
      var user := st.store.users[st.app.value.userId];
      var picture := FirstPictureClaim(ClaimsOf(st.store, st.app.value.userId));
      assert picture.Some? ==> picture.value == Claim(PictureClaimType, picture.value.claimValue);
      MeOk(UserInfo(user.email.GetOr(""), user.emailConfirmed,
                    if picture.Some? then Some(picture.value.claimValue) else None))
  }

  /** A first-time Google user is signed in on return, and `/me` then reports
      the Google email, confirmed, with the Google picture when one came. */
  lemma NewAccountSeesItselfInMe(st: ServerState, returnUrl: Option<string>, fw: Framework)
    requires ValidStore(st.store)
    requires st.external.Some? && !IsNullOrEmpty(st.external.value.email) && !IsNullOrEmpty(st.external.value.nameIdentifier)
    requires LoginKey(LoginProvider, st.external.value.nameIdentifier.value) !in st.store.logins
    requires FindByEmail(st.store, st.external.value.email.value).None?
    requires fw.createSucceeds && fw.newUserId !in st.store.users
    ensures Me(GoogleCallback(st, returnUrl, fw).state)
         == MeOk(UserInfo(st.external.value.email.value, true,
                          if IsNullOrEmpty(st.external.value.picture) then None else st.external.value.picture))
  {
    var p := st.external.value;
    assert fw.newUserId !in st.store.claims;
    var r := GoogleCallback(st, returnUrl, fw);
    if !IsNullOrEmpty(p.picture) {
      UpdatePictureUpserts([], p.picture.value);
      assert ClaimsOf(r.state.store, fw.newUserId) == UpdatedPictureClaims([], p.picture.value);
    }
  }

  /** `POST /logout`: both authentication cookies are cleared; the store is untouched. */
  function Logout(st: ServerState): (r: ServerState)
    ensures r.store == st.store
    ensures Me(r) == Unauthorized
  {
    ServerState(st.store, None, None)
  }

  datatype ResetMail = ResetMail(user: UserId, email: string, link: string)

  /** The response: 200, or 500 when an exception escapes the handler. */
  datatype ForgotPasswordResult = ForgotPasswordResult(status: int, mail: Option<ResetMail>)

  const InternalServerError: int := 500

  /** `POST /forgot-password`. The framework's token generator, base64url
      encoding of the token's UTF-8 bytes and URL encoding come in as
      functions; `senderCompletes` says whether the awaited
      `SendPasswordResetLinkAsync` returns rather than throws. The handler
      catches nothing, so a throwing sender fails the request. `mail` is the
      mail handed to the sender. */
  function ForgotPassword(
    s: Store, email: string, scheme: string, host: string,
    resetToken: UserId -> string, base64UrlUtf8: string -> string, urlEncode: string -> string,
    senderCompletes: bool): (r: ForgotPasswordResult)
    ensures r.mail.Some? <==> FindByEmail(s, email).Some? && FindByEmail(s, email).value.emailConfirmed
    ensures r.mail.Some? ==>
      var u := FindByEmail(s, email).value;
      r.mail.value == ResetMail(u.id, email,
        scheme + "://" + host + "/api/auth/resetPassword?email=" + urlEncode(email)
        + "&code=" + base64UrlUtf8(resetToken(u.id)))
    ensures r.status == 200 <==> r.mail.None? || senderCompletes
    ensures r.status != 200 ==> r.status == InternalServerError
  {
    var found := FindByEmail(s, email);
    if found.None? || !found.value.emailConfirmed then ForgotPasswordResult(200, None)
    else
      var code := base64UrlUtf8(resetToken(found.value.id));
      var link := scheme + "://" + host + "/api/auth/resetPassword?email=" + urlEncode(email) + "&code=" + code;
      ForgotPasswordResult(if senderCompletes then 200 else InternalServerError, Some(ResetMail(found.value.id, email, link)))
  }

  /** While the sender completes, the response to forgot-password is the
      same whatever the store holds, so it does not reveal which accounts
      exist. */
  lemma ForgotPasswordRevealsNothing(
    s1: Store, s2: Store, email1: string, email2: string, scheme: string, host: string,
    resetToken: UserId -> string, base64UrlUtf8: string -> string, urlEncode: string -> string)
    ensures ForgotPassword(s1, email1, scheme, host, resetToken, base64UrlUtf8, urlEncode, true).status
         == ForgotPassword(s2, email2, scheme, host, resetToken, base64UrlUtf8, urlEncode, true).status
         == 200
  {
  }

  /** A throwing sender does tell the two cases apart: an email with a
      confirmed account fails the request, any other email still gets 200. */
  lemma ForgotPasswordFailingSenderReveals(
    s: Store, known: string, unknown: string, scheme: string, host: string,
    resetToken: UserId -> string, base64UrlUtf8: string -> string, urlEncode: string -> string)
    requires FindByEmail(s, known).Some? && FindByEmail(s, known).value.emailConfirmed
    requires FindByEmail(s, unknown).None?
    ensures ForgotPassword(s, known, scheme, host, resetToken, base64UrlUtf8, urlEncode, false).status == InternalServerError
    ensures ForgotPassword(s, unknown, scheme, host, resetToken, base64UrlUtf8, urlEncode, false).status == 200
  {
  }

  datatype Challenge = Challenge(redirectUri: string, schemes: seq<string>)

  /** `GET /login-google`: a challenge to the Google scheme whose redirect
      target is the callback, carrying the escaped return URL ("/" when none
      was given). */
  function LoginGoogle(returnUrl: Option<string>, escapeDataString: string -> string): (r: Challenge)
    ensures r.schemes == [LoginProvider]
    ensures r.redirectUri == BasePath + "/google-callback?returnUrl=" + escapeDataString(returnUrl.GetOr("/"))
  {
    Challenge(BasePath + "/google-callback?returnUrl=" + escapeDataString(returnUrl.GetOr("/")), [LoginProvider])
  }

  /** The server with its store and cookies as mutable fields; each method
      performs the handler's awaited steps in order. */
  class AuthServer {
    var users: map<UserId, Account>
    var byEmail: map<string, UserId>
    var logins: map<LoginKey, UserId>
    var claims: map<UserId, seq<Claim>>
    var app: Option<AppSession>
    var external: Option<ExternalPrincipal>

    function State(): ServerState
      reads this
    {
      ServerState(Store(users, byEmail, logins, claims), app, external)
    }

    /** The store's consistency, kept by both handlers. */
    ghost predicate Valid()
      reads this
    {
      ValidStore(State().store)
    }

    constructor (initial: ServerState)
      ensures State() == initial
      ensures ValidStore(initial.store) ==> Valid()
    {
      users, byEmail, logins, claims := initial.store.users, initial.store.byEmail, initial.store.logins, initial.store.claims;
      app, external := initial.app, initial.external;
    }

    /** `CreateAsync`: adds the account when the framework accepts it. */
    method CreateAsync(a: Account, accepted: bool) returns (ok: bool)
      requires a.email.Some?
      modifies this
      ensures ok == (accepted && a.id !in old(users))
      ensures State() == if ok then old(State()).(store := AddUser(old(State()).store, a)) else old(State())
    {
      ok := accepted && a.id !in users;
      if ok {
        users := users[a.id := a];
        byEmail := byEmail[a.email.value := a.id];
      }
    }

    /** `RemoveClaimAsync`. */
    method RemoveClaimAsync(id: UserId, c: Claim)
      modifies this
      ensures State() == old(State()).(store := old(State()).store.(claims := old(claims)[id := RemoveClaim(ClaimsOf(old(State()).store, id), c)]))
    {
      claims := claims[id := RemoveClaim(ClaimsOf(State().store, id), c)];
    }

    /** `AddClaimAsync`: the claim goes to the end of the user's list. */
    method AddClaimAsync(id: UserId, c: Claim)
      modifies this
      ensures State() == old(State()).(store := old(State()).store.(claims := old(claims)[id := ClaimsOf(old(State()).store, id) + [c]]))
    {
      claims := claims[id := ClaimsOf(State().store, id) + [c]];
    }

    /** `UpdatePictureClaim`: remove the first picture claim if any, then add the new one. */
    method UpdatePictureClaim(id: UserId, picture: string)
      modifies this
      ensures State() == old(State()).(store := WithPicture(old(State()).store, id, picture))
    {
      var existing := FirstPictureClaim(ClaimsOf(State().store, id));
      if existing.Some? {
        RemoveClaimAsync(id, existing.value);
      }
      AddClaimAsync(id, Claim(PictureClaimType, picture));
    }

    /** `AddLoginAsync`: fails, changing nothing, when the binding exists. */
    method AddLoginAsync(id: UserId, key: LoginKey) returns (ok: bool)
      modifies this
      ensures ok == (key !in old(logins))
      ensures State() == old(State()).(store := AddLogin(old(State()).store, key, id))
    {
      ok := key !in logins;
      if ok {
        logins := logins[key := id];
      }
    }

    /** The handler for `GET /google-callback`. */
    method GoogleCallbackAsync(returnUrl: Option<string>, fw: Framework) returns (location: string)
      requires Valid()
      modifies this
      ensures CallbackResult(State(), location) == GoogleCallback(old(State()), returnUrl, fw)
      ensures Valid()
    {
      CallbackPreservesValid(State(), returnUrl, fw);
      // AuthenticateAsync(ExternalScheme)
      if external.None? {
        return ExternalLoginFailed;
      }
      var p := external.value;
      if IsNullOrEmpty(p.email) || IsNullOrEmpty(p.nameIdentifier) {
        return NoEmail;
      }
      var email := p.email.value;
      var key := LoginKey(LoginProvider, p.nameIdentifier.value);

      // ExternalLoginSignInAsync
      if key in logins && !fw.signInRefused {
        app := Some(AppSession(logins[key], true));
        var existingUser := FindByEmail(State().store, email);
        if existingUser.Some? && !IsNullOrEmpty(p.picture) {
          UpdatePictureClaim(existingUser.value.id, p.picture.value);
        }
        external := None;
        return returnUrl.GetOr("/");
      }

      var user := FindByEmail(State().store, email);
      var id: UserId;
      if user.None? {
        var created := CreateAsync(NewAccount(fw.newUserId, email), fw.createSucceeds);
        if !created {
          return CreateFailed;
        }
        id := fw.newUserId;
      } else {
        id := user.value.id;
      }

      if !IsNullOrEmpty(p.picture) {
        UpdatePictureClaim(id, p.picture.value);
      }

      var _ := AddLoginAsync(id, key);

      app := Some(AppSession(id, true));
      external := None;
      return returnUrl.GetOr("/");
    }

    /** The handler for `POST /logout`. */
    method LogoutAsync() returns (status: int)
      requires Valid()
      modifies this
      ensures State() == Logout(old(State()))
      ensures status == 200
      ensures Valid()
    {
      app, external := None, None;
      status := 200;
    }
  }
}
