/** The application shell: which page the navigation effect moves to, what `navigate`
    does, and which view each page shows. */
module Navigation {
  import opened Js
  import Auth
  import BooksApi

  /** The pages the shell knows by name; `Other(name)` is any other page name, and
      `PageNamed` only builds it for a name outside `KnownNames`. */
  datatype Page =
    | Loading | Home | Login | Register | AdminLogin | AdminDashboard | Onboarding
    | BookDetail | CartPage | Checkout | Profile
    | Other(name: string)

  const KnownNames: set<string> :=
    {"loading", "home", "login", "register", "adminLogin", "adminDashboard", "onboarding",
     "bookDetail", "cart", "checkout", "profile"}

  /** The name the source uses for a page. */
  function NameOf(p: Page): string {
    match p
    case Loading => "loading"
    case Home => "home"
    case Login => "login"
    case Register => "register"
    case AdminLogin => "adminLogin"
    case AdminDashboard => "adminDashboard"
    case Onboarding => "onboarding"
    case BookDetail => "bookDetail"
    case CartPage => "cart"
    case Checkout => "checkout"
    case Profile => "profile"
    case Other(name) => name
  }

  /** The page a name stands for. */
  function PageNamed(name: string): (p: Page)
    ensures p.Other? <==> name !in KnownNames
    ensures NameOf(p) == name
  {
    if name == "loading" then Loading
    else if name == "home" then Home
    else if name == "login" then Login
    else if name == "register" then Register
    else if name == "adminLogin" then AdminLogin
    else if name == "adminDashboard" then AdminDashboard
    else if name == "onboarding" then Onboarding
    else if name == "bookDetail" then BookDetail
    else if name == "cart" then CartPage
    else if name == "checkout" then Checkout
    else if name == "profile" then Profile
    else Other(name)
  }

  /** Every page the shell can hold, one built by `PageNamed`, is the page of its name. */
  lemma PageNamedOfName(p: Page)
    requires p.Other? ==> p.name !in KnownNames
    ensures PageNamed(NameOf(p)) == p
  {
  }

  /** What the navigation effect reads besides the current page. */
  datatype Inputs = Inputs(
    firebaseReady: bool,
    authReady: bool,
    isAdmin: bool,
    isLoggedIn: bool,
    user: Option<Auth.Profile>)

  predicate Ready(inp: Inputs) {
    inp.firebaseReady && inp.authReady
  }

  /** A signed-in user still needs onboarding without a country or without genres. */
  predicate NeedsOnboarding(user: Option<Auth.Profile>) {
    || user.None?
    || !Truthy(user.value.country)
    || user.value.genres.None?
    || |user.value.genres.value| == 0
  }

  /** A profile with a country and at least one genre is onboarded. */
  lemma OnboardedProfile(p: Auth.Profile)
    requires Truthy(p.country) && p.genres.Some? && |p.genres.value| > 0
    ensures !NeedsOnboarding(Some(p))
  {
  }

  /** The pages an onboarded user is sent home from, as the source lists them. */
  predicate SentHomeAsWritten(p: Page) {
    p == Login || p == Register || p == Onboarding || p == AdminLogin || p == AdminDashboard
  }

  /** The pages a signed-out user may stay on. */
  predicate SignedOutPage(p: Page) {
    p == Login || p == Register || p == AdminLogin
  }

  /** The navigation effect as the source writes it. */
  function NextPageAsWritten(p: Page, inp: Inputs): (r: Page)
    ensures Ready(inp) && r == Loading ==> p == Loading
    ensures Ready(inp) && inp.isAdmin ==> r == AdminDashboard
  {
    if !Ready(inp) then Loading
    else if inp.isAdmin then AdminDashboard
    else if inp.isLoggedIn then
      if NeedsOnboarding(inp.user) then Onboarding
      else if SentHomeAsWritten(p) then Home
      else p
    else if !SignedOutPage(p) then Login
    else p
  }

  /** As written, a signed-in, onboarded user whose page is still the loading page when
      authentication becomes ready stays on it, and the spinner is all the shell shows. */
  lemma LoadingStuckAsWritten(inp: Inputs)
    requires Ready(inp) && !inp.isAdmin && inp.isLoggedIn && !NeedsOnboarding(inp.user)
    ensures NextPageAsWritten(Loading, inp) == Loading
    ensures RenderPage(NextPageAsWritten(Loading, inp), inp.isAdmin, inp.isLoggedIn, None) == Spinner
  {
  }

  /** One such input: the effect sets the loading page while authentication is pending,
      and the sign-in handler then reports a user whose stored profile is complete. */
  lemma LoadingStuckExample()
    ensures var user := Auth.EmptyProfile.(country := Some("India"), genres := Some(["Fiction"]));
      var afterSignIn := Inputs(true, true, false, true, Some(user));
      && NextPageAsWritten(Home, afterSignIn.(authReady := false)) == Loading
      && NextPageAsWritten(Loading, afterSignIn) == Loading
  {
  }

  /** The pages an onboarded user is sent home from: those of the source and the loading page. */
  predicate SentHome(p: Page) {
    SentHomeAsWritten(p) || p == Loading
  }

  /** The navigation effect, with the loading page also left once everything is ready. */
  function NextPage(p: Page, inp: Inputs): (r: Page)
    ensures Ready(inp) <==> r != Loading
  {
    if !Ready(inp) then Loading
    else if inp.isAdmin then AdminDashboard
    else if inp.isLoggedIn then
      if NeedsOnboarding(inp.user) then Onboarding
      else if SentHome(p) then Home
      else p
    else if !SignedOutPage(p) then Login
    else p
  }

  /** The two rules differ only on the loading page of a ready, signed-in, onboarded user. */
  lemma AsWrittenAgreesElsewhere(p: Page, inp: Inputs)
    requires !(p == Loading && Ready(inp) && !inp.isAdmin && inp.isLoggedIn && !NeedsOnboarding(inp.user))
    ensures NextPageAsWritten(p, inp) == NextPage(p, inp)
  {
  }

  /** Once everything is ready the loading page is always left. */
  lemma ReadyLeavesLoading(p: Page, inp: Inputs)
    requires Ready(inp)
    ensures NextPage(p, inp) != Loading
  {
  }

  /** The outcomes of the effect as written, case by case. For an onboarded user only
      the sign-in, onboarding and admin pages lead home; every other page, the loading
      page included, stays. */
  lemma NextPageCases(p: Page, inp: Inputs)
    ensures !Ready(inp) ==> NextPageAsWritten(p, inp) == Loading
    ensures Ready(inp) && inp.isAdmin ==> NextPageAsWritten(p, inp) == AdminDashboard
    ensures Ready(inp) && !inp.isAdmin && inp.isLoggedIn && NeedsOnboarding(inp.user) ==>
      NextPageAsWritten(p, inp) == Onboarding
    ensures Ready(inp) && !inp.isAdmin && inp.isLoggedIn && !NeedsOnboarding(inp.user) ==>
      NextPageAsWritten(p, inp) == if SentHomeAsWritten(p) then Home else p
    ensures Ready(inp) && !inp.isAdmin && inp.isLoggedIn && !NeedsOnboarding(inp.user) && p == Loading ==>
      NextPageAsWritten(p, inp) == Loading
    ensures Ready(inp) && !inp.isAdmin && !inp.isLoggedIn ==>
      NextPageAsWritten(p, inp) == if SignedOutPage(p) then p else Login
  {
  }

  /** The effect re-runs whenever the page changes; applied to its own result it
      changes nothing, so it settles after one step. */
  lemma NextPageIdempotent(p: Page, inp: Inputs)
    ensures NextPage(NextPage(p, inp), inp) == NextPage(p, inp)
  {
  }

  lemma NextPageAsWrittenIdempotent(p: Page, inp: Inputs)
    ensures NextPageAsWritten(NextPageAsWritten(p, inp), inp) == NextPageAsWritten(p, inp)
  {
  }

  // ---------------------------------------------------------------- views

  datatype View =
    | Spinner | LoginView | RegisterView | AdminLoginView | AdminDashboardView | OnboardingView
    | HomeView | BookDetailView(book: Option<BooksApi.Book>) | CartView | CheckoutView | ProfileView

  /** `renderPage`. */
  function RenderPage(p: Page, isAdmin: bool, isLoggedIn: bool, selectedBook: Option<BooksApi.Book>): (v: View)
    ensures v == Spinner <==> p == Loading
    ensures p != Loading && isAdmin ==> v == AdminDashboardView
  {
    if p == Loading then Spinner
    else if isAdmin then AdminDashboardView
    else if !isLoggedIn && p != Register && p != AdminLogin then LoginView
    else match p
      case Login => LoginView
      case Register => RegisterView
      case AdminLogin => AdminLoginView
      case AdminDashboard => AdminDashboardView
      case Onboarding => OnboardingView
      case Home => HomeView
      case BookDetail => BookDetailView(selectedBook)
      case CartPage => CartView
      case Checkout => CheckoutView
      case Profile => ProfileView
      case Loading => Spinner
      case Other(_) => if isLoggedIn then HomeView else LoginView
  }

  /** The view rules: the spinner for the loading page, the dashboard for an admin, the
      sign-in pages only for a signed-out user, and an unknown page as Home or Login. */
  lemma RenderRules(p: Page, isAdmin: bool, isLoggedIn: bool, book: Option<BooksApi.Book>)
    ensures p == Loading ==> RenderPage(p, isAdmin, isLoggedIn, book) == Spinner
    ensures p != Loading && isAdmin ==> RenderPage(p, isAdmin, isLoggedIn, book) == AdminDashboardView
    ensures p != Loading && !isAdmin && !isLoggedIn ==>
      RenderPage(p, isAdmin, isLoggedIn, book) == (if p == Register then RegisterView
                                                    else if p == AdminLogin then AdminLoginView else LoginView)
    ensures p.Other? && !isAdmin ==> RenderPage(p, isAdmin, isLoggedIn, book) == (if isLoggedIn then HomeView else LoginView)
  {
  }

  /** After the effect as written, the view matches the session: the dashboard for an
      admin, onboarding for a user without a completed profile, a sign-in page for a
      signed-out visitor, and for an onboarded user never a sign-in page or the
      dashboard, and the spinner only on the loading page it was left on. */
  lemma SettledView(p: Page, inp: Inputs, book: Option<BooksApi.Book>)
    requires Ready(inp)
    ensures var v := RenderPage(NextPageAsWritten(p, inp), inp.isAdmin, inp.isLoggedIn, book);
      && (inp.isAdmin ==> v == AdminDashboardView)
      && (!inp.isAdmin && inp.isLoggedIn && NeedsOnboarding(inp.user) ==> v == OnboardingView)
      && (!inp.isAdmin && !inp.isLoggedIn ==> v == LoginView || v == RegisterView || v == AdminLoginView)
      && (!inp.isAdmin && inp.isLoggedIn && !NeedsOnboarding(inp.user) ==>
            v !in {LoginView, RegisterView, AdminLoginView, AdminDashboardView, OnboardingView}
            && (v == Spinner <==> p == Loading))
  {
    var q := NextPageAsWritten(p, inp);
    if !inp.isAdmin && inp.isLoggedIn && !NeedsOnboarding(inp.user) {
      assert !SentHomeAsWritten(q);
    }
  }

  /** With the corrected rule the spinner is gone too: an onboarded user never sees a
      sign-in page, the dashboard, the onboarding page or the spinner once everything is
      ready. */
  lemma CorrectedSettledView(p: Page, inp: Inputs, book: Option<BooksApi.Book>)
    requires Ready(inp) && !inp.isAdmin && inp.isLoggedIn && !NeedsOnboarding(inp.user)
    ensures RenderPage(NextPage(p, inp), inp.isAdmin, inp.isLoggedIn, book)
      !in {Spinner, LoginView, RegisterView, AdminLoginView, AdminDashboardView, OnboardingView}
  {
    var q := NextPage(p, inp);
    ReadyLeavesLoading(p, inp);
    assert !SentHome(q);
  }

  // ---------------------------------------------------------------- the shell

  class AppShell {
    var currentPage: Page
    var selectedBook: Option<BooksApi.Book>
    var firebaseReady: bool

    /** The page state starts on the home page, with no book selected. */
    constructor ()
      ensures currentPage == Home && selectedBook.None? && !firebaseReady
    {
      currentPage := Home;
      selectedBook := None;
      firebaseReady := false;
    }

    /** The start-up effect marks the service as initialised on every path: configured,
        unconfigured, or already set up. */
    method InitialiseFirebase()
      modifies this
      ensures firebaseReady && currentPage == old(currentPage) && selectedBook == old(selectedBook)
    {
      firebaseReady := true;
    }

    /** What the effect reads from the shell and the authentication provider. */
    function InputsOf(auth: Auth.AuthProvider): Inputs
      reads this, auth
    {
      Inputs(firebaseReady, auth.authReady, auth.isAdmin, auth.isLoggedIn, auth.user)
    }

    /** The navigation effect, run after each change of its inputs, as the source
        writes it. */
    method NavigationEffect(auth: Auth.AuthProvider)
      modifies this
      ensures currentPage == NextPageAsWritten(old(currentPage), old(InputsOf(auth)))
      ensures selectedBook == old(selectedBook) && firebaseReady == old(firebaseReady)
    {
      if !firebaseReady || !auth.authReady {
        currentPage := Loading;
        return;
      }
      if auth.isAdmin {
        if currentPage != AdminDashboard {
          currentPage := AdminDashboard;
        }
      } else if auth.isLoggedIn {
        if NeedsOnboarding(auth.user) {
          if currentPage != Onboarding {
            currentPage := Onboarding;
          }
        } else if SentHomeAsWritten(currentPage) {
          if currentPage != Home {
            currentPage := Home;
          }
        }
      } else if !SignedOutPage(currentPage) {
        currentPage := Login;
      }
    }

    /** `navigate(page, data)`: the page always changes; the selected book only for the
        book page with a book given. */
    method Navigate(page: string, data: Option<BooksApi.Book>)
      modifies this
      ensures currentPage == PageNamed(page) && NameOf(currentPage) == page && firebaseReady == old(firebaseReady)
      ensures selectedBook == if page == "bookDetail" && data.Some? then data else old(selectedBook)
    {
      currentPage := PageNamed(page);
      if page == "bookDetail" && data.Some? {
        selectedBook := data;
      }
    }

    /** The view the shell renders. */
    function CurrentView(auth: Auth.AuthProvider): View
      reads this, auth
    {
      RenderPage(currentPage, auth.isAdmin, auth.isLoggedIn, selectedBook)
    }
  }
}
