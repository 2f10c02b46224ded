/** The authentication provider: the signed-in state, the user's profile with its
    derived currency, the admin shortcut, the error messages shown for failed sign-in
    and sign-up, and the order and registration counters of the admin dashboard. */
module Auth {
  import opened Js

  const AdminEmail := "admin@booknest.com"
  const AdminPassword := "admin123"
  const AdminId := "admin-1"
  const AdminName := "Admin User"
  const DefaultAppId := "local-dev-booknest"
  const DefaultName := "User"
  const DefaultSymbol := "$"
  const DefaultCode := "USD"

  const NotReadyMessage := "Authentication service not ready."
  const InvalidAdminMessage := "Invalid admin credentials."
  const ServiceNotReadyMessage := "Service not ready."
  const UpdateFailedMessage := "Failed to update profile."

  const LoginGeneric := "Login failed. Please check your credentials."
  const LoginInvalid := "Invalid email or password."
  const LoginWrongPassword := "Incorrect password."
  const RegisterGeneric := "Registration failed. Please try again."
  const RegisterInUse := "This email is already registered."
  const RegisterWeak := "Password is too weak (min 6 characters)."

  /** A user profile as a JavaScript object: `None` is a key that is absent or `undefined`;
      a key holding `null` is not distinguished from an absent one. */
  datatype Profile = Profile(
    id: Option<string>,
    uid: Option<string>,
    email: Option<string>,
    name: Option<string>,
    country: Option<string>,
    genres: Option<seq<string>>,
    currencySymbol: Option<string>,
    currencyCode: Option<string>)

  const EmptyProfile := Profile(None, None, None, None, None, None, None, None)

  /** `{...base, ...top}`: every key present in `top` replaces the one in `base`. */
  function Overlay(base: Profile, top: Profile): (r: Profile)
    ensures top.id.Some? ==> r.id == top.id
    ensures top.id.None? ==> r.id == base.id
    ensures top.uid.Some? ==> r.uid == top.uid
    ensures top.uid.None? ==> r.uid == base.uid
    ensures top.email.Some? ==> r.email == top.email
    ensures top.email.None? ==> r.email == base.email
    ensures top.name.Some? ==> r.name == top.name
    ensures top.name.None? ==> r.name == base.name
    ensures top.country.Some? ==> r.country == top.country
    ensures top.country.None? ==> r.country == base.country
    ensures top.genres.Some? ==> r.genres == top.genres
    ensures top.genres.None? ==> r.genres == base.genres
    ensures top.currencySymbol.Some? ==> r.currencySymbol == top.currencySymbol
    ensures top.currencySymbol.None? ==> r.currencySymbol == base.currencySymbol
    ensures top.currencyCode.Some? ==> r.currencyCode == top.currencyCode
    ensures top.currencyCode.None? ==> r.currencyCode == base.currencyCode
  {
    Profile(
      if top.id.Some? then top.id else base.id,
      if top.uid.Some? then top.uid else base.uid,
      if top.email.Some? then top.email else base.email,
      if top.name.Some? then top.name else base.name,
      if top.country.Some? then top.country else base.country,
      if top.genres.Some? then top.genres else base.genres,
      if top.currencySymbol.Some? then top.currencySymbol else base.currencySymbol,
      if top.currencyCode.Some? then top.currencyCode else base.currencyCode)
  }

  /** Overlaying twice with the same keys is overlaying once. */
  lemma OverlayIdempotent(base: Profile, top: Profile)
    ensures Overlay(Overlay(base, top), top) == Overlay(base, top)
  {
  }

  /** The currency of a country. `symbolOf` stands for `getCurrencySymbol` and `codes`
      for the `code` entries of `COUNTRY_CURRENCY_MAP`; neither is part of this model. */
  datatype CurrencyTable = CurrencyTable(symbolOf: string -> string, codes: map<string, string>)

  /** `COUNTRY_CURRENCY_MAP[country]?.code || 'USD'`. */
  function CodeOf(table: CurrencyTable, country: string): (r: string)
    ensures r != ""
    ensures country !in table.codes ==> r == DefaultCode
  {
    if country in table.codes && table.codes[country] != "" then table.codes[country] else DefaultCode
  }

  /** The profile with its currency fields derived from its country alone: a truthy
      country gives its symbol and code, anything else gives `$` and `USD`. */
  function WithCurrency(p: Profile, table: CurrencyTable): (r: Profile)
    ensures r.(currencySymbol := p.currencySymbol, currencyCode := p.currencyCode) == p
    ensures Truthy(p.country) ==>
      r.currencySymbol == Some(table.symbolOf(p.country.value)) && r.currencyCode == Some(CodeOf(table, p.country.value))
    ensures !Truthy(p.country) ==> r.currencySymbol == Some(DefaultSymbol) && r.currencyCode == Some(DefaultCode)
  {
    if Truthy(p.country) then
      p.(currencySymbol := Some(table.symbolOf(p.country.value)), currencyCode := Some(CodeOf(table, p.country.value)))
    else
      p.(currencySymbol := Some(DefaultSymbol), currencyCode := Some(DefaultCode))
  }

  /** The currency fields never survive from the input: two profiles that agree on
      everything but their currency fields get the same derived profile. */
  lemma CurrencyFromCountryOnly(p: Profile, q: Profile, table: CurrencyTable)
    requires p.(currencySymbol := None, currencyCode := None) == q.(currencySymbol := None, currencyCode := None)
    ensures WithCurrency(p, table) == WithCurrency(q, table)
  {
    assert p.country == q.country;
  }

  /** The profile a signed-in user first gets, before the stored one is read. */
  function BaseProfile(u: AuthUser): (r: Profile)
    ensures r.uid == Some(u.uid) && r.name == Some(OrElse(u.displayName, DefaultName))
    ensures r.email == u.email && r.id.None?
    ensures r.country == Some("") && r.genres == Some([])
    ensures r.currencySymbol == Some(DefaultSymbol) && r.currencyCode == Some(DefaultCode)
  {
    Profile(None, Some(u.uid), u.email, Some(OrElse(u.displayName, DefaultName)), Some(""), Some([]),
      Some(DefaultSymbol), Some(DefaultCode))
  }

  /** The profile kept for the admin shortcut. */
  const AdminProfile := Profile(Some(AdminId), None, Some(AdminEmail), Some(AdminName), None, None, None, None)

  /** The fetched profile overlaid on the base one, its currency taken from the fetched
      country, as the sign-in handler builds it. */
  function MergeFetched(base: Profile, fetched: Profile, table: CurrencyTable): (r: Profile)
    ensures r.(currencySymbol := None, currencyCode := None)
         == Overlay(base, fetched).(currencySymbol := None, currencyCode := None)
    ensures Truthy(fetched.country) ==>
      r.currencySymbol == Some(table.symbolOf(fetched.country.value)) && r.currencyCode == Some(CodeOf(table, fetched.country.value))
    ensures !Truthy(fetched.country) ==> r.currencySymbol == Some(DefaultSymbol) && r.currencyCode == Some(DefaultCode)
  {
    var merged := Overlay(base, fetched);
    var country := fetched.country;
    merged.(currencySymbol := Some(if Truthy(country) then table.symbolOf(country.value) else DefaultSymbol),
            currencyCode := Some(if Truthy(country) then CodeOf(table, country.value) else DefaultCode))
  }

  /** Reading the currency from the fetched country is the same as deriving it from the
      merged country, since the base country is empty. */
  lemma MergeFetchedDerivesCurrency(u: AuthUser, fetched: Profile, table: CurrencyTable)
    ensures MergeFetched(BaseProfile(u), fetched, table) == WithCurrency(Overlay(BaseProfile(u), fetched), table)
  {
  }

  // ---------------------------------------------------------------- outcomes of the services

  /** A user of the authentication service. */
  datatype AuthUser = AuthUser(uid: string, email: Option<string>, displayName: Option<string>)

  /** The result of sign-in or sign-up: success, or failure with the service's error code. */
  datatype AuthCall = Accepted(user: AuthUser) | Refused(code: string)

  /** What reading the stored profile gives. */
  datatype ProfileRead = Found(data: Profile) | NotFound | ReadFailed

  /** Whether a document write succeeds. */
  datatype Write = WriteOk | WriteRejected

  /** What the provider's operations return to their callers. */
  datatype Outcome = Success | Failure(error: string)

  // ---------------------------------------------------------------- error messages

  /** The message shown when sign-in fails with the given error code. */
  function LoginErrorMessage(code: string): (r: string)
    ensures r == LoginInvalid <==> code == "auth/user-not-found" || code == "auth/invalid-credential"
    ensures r == LoginWrongPassword <==> code == "auth/wrong-password"
    ensures r in {LoginInvalid, LoginWrongPassword, LoginGeneric}
  {
    if code == "auth/user-not-found" || code == "auth/invalid-credential" then LoginInvalid
    else if code == "auth/wrong-password" then LoginWrongPassword
    else LoginGeneric
  }

  /** The message shown when sign-up fails with the given error code. */
  function RegisterErrorMessage(code: string): (r: string)
    ensures r == RegisterInUse <==> code == "auth/email-already-in-use"
    ensures r == RegisterWeak <==> code == "auth/weak-password"
    ensures r in {RegisterInUse, RegisterWeak, RegisterGeneric}
  {
    if code == "auth/email-already-in-use" then RegisterInUse
    else if code == "auth/weak-password" then RegisterWeak
    else RegisterGeneric
  }

  // ---------------------------------------------------------------- the dashboard counters

  datatype AdminStats = AdminStats(totalRegisteredUsers: int, totalOrders: int, totalRevenue: int)

  /** The counters after an order of `total`: the increment applies when the document
      exists and accepts it; otherwise the merge write sets the three counters to
      0 users, 1 order and 0 revenue. */
  function AfterOrder(doc: Option<AdminStats>, update: Write, total: int): (r: AdminStats)
    ensures doc.Some? && update == WriteOk ==>
      r == doc.value.(totalOrders := doc.value.totalOrders + 1, totalRevenue := doc.value.totalRevenue + total)
    ensures doc.None? || update == WriteRejected ==> r == AdminStats(0, 1, 0)
  {
    if doc.Some? && update == WriteOk then
      doc.value.(totalOrders := doc.value.totalOrders + 1, totalRevenue := doc.value.totalRevenue + total)
    else AdminStats(0, 1, 0)
  }

  /** The counters after a sign-up: one more user, or 1, 0, 0 from the merge write. */
  function AfterRegister(doc: Option<AdminStats>, update: Write): (r: AdminStats)
    ensures doc.Some? && update == WriteOk ==> r == doc.value.(totalRegisteredUsers := doc.value.totalRegisteredUsers + 1)
    ensures doc.None? || update == WriteRejected ==> r == AdminStats(1, 0, 0)
  {
    if doc.Some? && update == WriteOk then doc.value.(totalRegisteredUsers := doc.value.totalRegisteredUsers + 1)
    else AdminStats(1, 0, 0)
  }

  /** Successive orders on a document that accepts every increment add up: the order
      count rises by their number and the revenue by their sum. */
  lemma {:induction false} OrdersAccumulate(s: AdminStats, totals: seq<int>)
    decreases totals
    ensures Orders(s, totals) == s.(totalOrders := s.totalOrders + |totals|, totalRevenue := s.totalRevenue + Sum(totals))
  {
    if totals != [] {
      OrdersAccumulate(AfterOrder(Some(s), WriteOk, totals[0]), totals[1..]);
    }
  }

  function Sum(xs: seq<int>): int {
    if xs == [] then 0 else xs[0] + Sum(xs[1..])
  }

  /** The counters after a run of accepted order increments. */
  function Orders(s: AdminStats, totals: seq<int>): AdminStats
    decreases totals
  {
    if totals == [] then s else Orders(AfterOrder(Some(s), WriteOk, totals[0]), totals[1..])
  }

  /** A rejected increment resets the counters kept so far: the fallback write does not
      read the document. */
  lemma RejectedOrderResets(s: AdminStats, total: int)
    ensures AfterOrder(Some(s), WriteRejected, total) == AfterOrder(None, WriteOk, total)
  {
  }

  /** The admin-dashboard counters document. */
  class StatsDocument {
    var doc: Option<AdminStats>

    constructor (initial: Option<AdminStats>)
      ensures doc == initial
    {
      doc := initial;
    }
  }

  // ---------------------------------------------------------------- the provider

  /** What `register` does: its answer, the profile document it writes and the counters
      it leaves behind. */
  datatype RegisterRun = RegisterRun(outcome: Outcome, profileDoc: Option<Profile>, stats: Option<AdminStats>)

  /** The profile a new account is stored with. */
  function NewAccountProfile(u: AuthUser, name: string): Profile {
    Profile(None, Some(u.uid), u.email, Some(name), Some(""), Some([]), Some(DefaultSymbol), Some(DefaultCode))
  }

  class AuthProvider {
    var isLoggedIn: bool
    var isAdmin: bool
    var user: Option<Profile>
    var authReady: bool
    /** Whether the authentication and database instances are set. */
    var hasAuth: bool
    var hasDb: bool
    var userId: Option<string>
    var appId: Option<string>
    /** The page-wide flag set by `logout` and read by the sign-in listener. */
    var manuallyLoggedOut: bool

    constructor ()
      ensures !isLoggedIn && !isAdmin && user.None? && !authReady
      ensures !hasAuth && !hasDb && userId.None? && appId.None? && !manuallyLoggedOut
    {
      isLoggedIn, isAdmin, user, authReady := false, false, None, false;
      hasAuth, hasDb, userId, appId, manuallyLoggedOut := false, false, None, None, false;
    }

    /** Whether the sign-in handler is skipped: the instances are set and the user is
        the one already handled. */
    predicate SignInSkipped(firebaseUser: Option<AuthUser>)
      reads this
    {
      hasAuth && hasDb && firebaseUser.Some? && userId == Some(firebaseUser.value.uid)
    }

    /** The state the sign-in handler leaves: when skipped, nothing changes; otherwise
        the instances and the application id are stored, authentication is ready, the
        manual sign-out flag is kept, and a user is signed in with the base profile,
        merged with the stored one when that is found, while no user clears the
        signed-in state. */
    twostate predicate SignInHandled(firebaseUser: Option<AuthUser>, authGiven: bool, dbGiven: bool,
                                     envAppId: Option<string>, read: ProfileRead, table: CurrencyTable)
      reads this
    {
      && (old(SignInSkipped(firebaseUser)) ==>
            && isLoggedIn == old(isLoggedIn) && isAdmin == old(isAdmin) && user == old(user)
            && authReady == old(authReady) && hasAuth == old(hasAuth) && hasDb == old(hasDb)
            && userId == old(userId) && appId == old(appId) && manuallyLoggedOut == old(manuallyLoggedOut))
      && (!old(SignInSkipped(firebaseUser)) ==>
            && hasAuth == authGiven && hasDb == dbGiven && appId == Some(OrElse(envAppId, DefaultAppId))
            && authReady && manuallyLoggedOut == old(manuallyLoggedOut)
            && (firebaseUser.None? ==> !isLoggedIn && !isAdmin && user.None? && userId.None?)
            && (firebaseUser.Some? ==>
                  var u := firebaseUser.value;
                  && isLoggedIn && !isAdmin && userId == Some(u.uid)
                  && user == Some(if dbGiven && read.Found? then MergeFetched(BaseProfile(u), read.data, table)
                                  else BaseProfile(u))))
    }

    /** The handler run whenever the signed-in user changes. It does nothing when the
        instances are set and the user is the one already handled; otherwise it stores
        the instances and the application id, then either signs the user in with the
        base profile, merged with the stored one when that can be read, or clears the
        signed-in state. Either way authentication is then ready. */
    method SetAuthState(firebaseUser: Option<AuthUser>, authGiven: bool, dbGiven: bool, envAppId: Option<string>,
                        read: ProfileRead, table: CurrencyTable)
      modifies this
      ensures SignInHandled(firebaseUser, authGiven, dbGiven, envAppId, read, table)
    {
      if SignInSkipped(firebaseUser) {
        return;
      }
      hasAuth := authGiven;
      hasDb := dbGiven;
      appId := Some(OrElse(envAppId, DefaultAppId));
      if firebaseUser.Some? {
        var u := firebaseUser.value;
        userId := Some(u.uid);
        isLoggedIn := true;
        isAdmin := false;
        var profile := BaseProfile(u);
        user := Some(profile);
        // A missing stored profile is written back as the base one, and a failed read
        // keeps the base one: only a profile that is found changes the user.
        if dbGiven && read.Found? {
          profile := MergeFetched(profile, read.data, table);
          user := Some(profile);
        }
        authReady := true;
      } else {
        isLoggedIn := false;
        isAdmin := false;
        user := None;
        userId := None;
        authReady := true;
      }
    }

    /** The sign-in listener: a sign-out that follows `logout` only resets the flag;
        every other change goes to `SetAuthState`. */
    method AuthStateChanged(firebaseUser: Option<AuthUser>, authGiven: bool, dbGiven: bool,
                            envAppId: Option<string>, read: ProfileRead, table: CurrencyTable)
      modifies this
      ensures firebaseUser.None? && old(manuallyLoggedOut) ==>
        && !manuallyLoggedOut && isLoggedIn == old(isLoggedIn) && isAdmin == old(isAdmin) && user == old(user)
        && authReady == old(authReady) && hasAuth == old(hasAuth) && hasDb == old(hasDb)
        && userId == old(userId) && appId == old(appId)
      ensures !(firebaseUser.None? && old(manuallyLoggedOut)) ==>
        SignInHandled(firebaseUser, authGiven, dbGiven, envAppId, read, table)
    {
      if firebaseUser.None? && manuallyLoggedOut {
        manuallyLoggedOut := false;
        return;
      }
      SetAuthState(firebaseUser, authGiven, dbGiven, envAppId, read, table);
    }

    /** `login`: fails at once without the authentication instance; otherwise the
        service's answer decides. The signed-in state follows from the listener. */
    function Login(call: AuthCall): (r: Outcome)
      reads this
      ensures !hasAuth ==> r == Failure(NotReadyMessage)
      ensures hasAuth && call.Accepted? ==> r == Success
      ensures hasAuth && call.Refused? ==> r == Failure(LoginErrorMessage(call.code))
    {
      if !hasAuth then Failure(NotReadyMessage)
      else match call
        case Accepted(_) => Success
        case Refused(code) => Failure(LoginErrorMessage(code))
    }

    /** `register`: creates the account; with the database and application id set it
        stores the new profile and counts the user on the dashboard. */
    function Register(call: AuthCall, name: string, stats: Option<AdminStats>, update: Write): (r: RegisterRun)
      reads this
      ensures !hasAuth ==> r == RegisterRun(Failure(NotReadyMessage), None, stats)
      ensures hasAuth && call.Refused? ==> r == RegisterRun(Failure(RegisterErrorMessage(call.code)), None, stats)
      ensures hasAuth && call.Accepted? && hasDb && Truthy(appId) ==>
        r == RegisterRun(Success, Some(NewAccountProfile(call.user, name)), Some(AfterRegister(stats, update)))
      ensures hasAuth && call.Accepted? && !(hasDb && Truthy(appId)) ==> r == RegisterRun(Success, None, stats)
    {
      if !hasAuth then RegisterRun(Failure(NotReadyMessage), None, stats)
      else match call
        case Refused(code) => RegisterRun(Failure(RegisterErrorMessage(code)), None, stats)
        case Accepted(u) =>
          if hasDb && Truthy(appId) then
            RegisterRun(Success, Some(NewAccountProfile(u, name)), Some(AfterRegister(stats, update)))
          else RegisterRun(Success, None, stats)
    }

    /** `adminLogin`: before authentication is ready it fails; with the fixed admin
        e-mail and password it signs the admin in; otherwise it fails. A failure
        changes nothing. */
    method AdminLogin(email: string, password: string) returns (r: Outcome)
      modifies this
      ensures !old(authReady) ==> r == Failure(NotReadyMessage) && unchanged(this)
      ensures old(authReady) && email == AdminEmail && password == AdminPassword ==>
        && r == Success && isLoggedIn && isAdmin && user == Some(AdminProfile) && userId == Some(AdminId)
        && authReady == old(authReady) && hasAuth == old(hasAuth) && hasDb == old(hasDb) && appId == old(appId)
        && manuallyLoggedOut == old(manuallyLoggedOut)
      ensures old(authReady) && !(email == AdminEmail && password == AdminPassword) ==>
        r == Failure(InvalidAdminMessage) && unchanged(this)
    {
      if !authReady {
        return Failure(NotReadyMessage);
      }
      if email == AdminEmail && password == AdminPassword {
        isLoggedIn := true;
        isAdmin := true;
        user := Some(AdminProfile);
        userId := Some(AdminId);
        return Success;
      }
      return Failure(InvalidAdminMessage);
    }

    /** `logout`: clears the signed-in state and raises the manual sign-out flag. */
    method Logout()
      modifies this
      ensures !isLoggedIn && !isAdmin && user.None? && userId.None? && manuallyLoggedOut
      ensures authReady == old(authReady) && hasAuth == old(hasAuth) && hasDb == old(hasDb) && appId == old(appId)
    {
      manuallyLoggedOut := true;
      isLoggedIn := false;
      isAdmin := false;
      user := None;
      userId := None;
    }

    /** Whether `updateUserProfile` can reach the profile document. */
    predicate ProfileStoreReady()
      reads this
    {
      hasDb && Truthy(userId) && Truthy(appId)
    }

    /** The profile `updateUserProfile` stores: the current profile overlaid with the
        updates, its uid forced to the user id and its currency derived from the
        resulting country. */
    function UpdatedProfile(updates: Profile, table: CurrencyTable): (r: Profile)
      reads this
      requires userId.Some?
      ensures r.uid == userId
      ensures r.id == (if updates.id.Some? then updates.id else if user.Some? then user.value.id else None)
      ensures r.email == (if updates.email.Some? then updates.email else if user.Some? then user.value.email else None)
      ensures r.name == (if updates.name.Some? then updates.name else if user.Some? then user.value.name else None)
      ensures r.country == (if updates.country.Some? then updates.country
                            else if user.Some? then user.value.country else None)
      ensures r.genres == (if updates.genres.Some? then updates.genres
                           else if user.Some? then user.value.genres else None)
      ensures Truthy(r.country) ==>
        r.currencySymbol == Some(table.symbolOf(r.country.value)) && r.currencyCode == Some(CodeOf(table, r.country.value))
      ensures !Truthy(r.country) ==> r.currencySymbol == Some(DefaultSymbol) && r.currencyCode == Some(DefaultCode)
    {
      var base := if user.Some? then user.value else EmptyProfile;
      WithCurrency(Overlay(base, updates).(uid := userId), table)
    }

    /** `updateUserProfile`: without the database, a user id or an application id it
        fails and changes nothing; otherwise the new profile is written and, if the
        write succeeds, becomes the current one. */
    method UpdateUserProfile(updates: Profile, write: Write, table: CurrencyTable) returns (r: Outcome)
      modifies this
      ensures !old(ProfileStoreReady()) ==> r == Failure(ServiceNotReadyMessage) && unchanged(this)
      ensures old(ProfileStoreReady()) && write == WriteRejected ==> r == Failure(UpdateFailedMessage) && unchanged(this)
      ensures old(ProfileStoreReady()) && write == WriteOk ==>
        && r == Success && user == Some(old(UpdatedProfile(updates, table)))
        && isLoggedIn == old(isLoggedIn) && isAdmin == old(isAdmin) && authReady == old(authReady)
        && hasAuth == old(hasAuth) && hasDb == old(hasDb) && userId == old(userId) && appId == old(appId)
        && manuallyLoggedOut == old(manuallyLoggedOut)
    {
      if !ProfileStoreReady() {
        return Failure(ServiceNotReadyMessage);
      }
      var updated := UpdatedProfile(updates, table);
      if write == WriteRejected {
        return Failure(UpdateFailedMessage);
      }
      user := Some(updated);
      return Success;
    }

    /** `incrementOrderStats`: without the database or application id nothing happens;
        otherwise the dashboard counters take the order into account. */
    method IncrementOrderStats(stats: StatsDocument, total: int, update: Write)
      modifies stats
      ensures hasDb && Truthy(appId) ==> stats.doc == Some(AfterOrder(old(stats.doc), update, total))
      ensures !(hasDb && Truthy(appId)) ==> stats.doc == old(stats.doc)
    {
      if hasDb && Truthy(appId) {
        stats.doc := Some(AfterOrder(stats.doc, update, total));
      }
    }
  }

  /** A manual logout followed by the listener's sign-out event: the flag keeps the
      sign-in handler from running, so the session stays cleared, authentication stays
      as ready as it was, and the flag is reset for the next event. */
  method LogoutThenSignOutEvent(auth: AuthProvider, authGiven: bool, dbGiven: bool, envAppId: Option<string>,
                                read: ProfileRead, table: CurrencyTable)
    modifies auth
    ensures !auth.isLoggedIn && !auth.isAdmin && auth.user.None? && auth.userId.None? && !auth.manuallyLoggedOut
    ensures auth.authReady == old(auth.authReady) && auth.hasAuth == old(auth.hasAuth)
    ensures auth.hasDb == old(auth.hasDb) && auth.appId == old(auth.appId)
  {
    auth.Logout();
    auth.AuthStateChanged(None, authGiven, dbGiven, envAppId, read, table);
  }
}
