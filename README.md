# AI BookNest in Dafny

This project models the rule-bearing core of AI BookNest and proves properties of the model. AI BookNest is an online bookshop: a React single-page application backed by Firebase, plus one HTTP cloud function that asks a text model for a book recommendation.

The model has one module per source file, plus a module of JavaScript built-ins:

- `Js` (`js.dfy`) states the JavaScript semantics the application relies on, as Dafny functions: optional values and their truthiness, `||` defaults, `trim`, `startsWith`, `indexOf`, `replace` with a string pattern, one-character `split`, `join`, `substring` with its index clamping, `replace(/\D/g, '')`, `replace(/\s/g, '')` and `slice(0, n)`.
- `Recommendation` (`recommendation.dfy`) is the `generateBookRecommendation` function.
  - Request validation gives 405 and 400.
  - The instruction sent to the model.
  - The reply parser: an imperative loop proved equal to a declarative "last line with each prefix" specification.
  - The two title fallbacks, the stored feed entry, and the 200 and 500 responses.
  - The model's reply and the database write are inputs.
- `Cart` (`cart.dfy`) is the cart context.
  - Add, remove, clear and clear-on-sign-out work on a `seq` held by a `CartStore` class.
  - The total is a fold over the lines.
  - Add and remove keep the invariant of unique ids and quantities of at least 1.
- `Auth` (`auth.dfy`) is the authentication context, as an `AuthProvider` class.
  - The sign-in handler, the manual sign-out flag, the admin shortcut and logout.
  - Profile updates with their derived currency.
  - The sign-in and sign-up error messages.
  - The dashboard counters with their fallback writes.
- `Navigation` (`navigation.dfy`) is the application shell: the navigation effect, `navigate` and the page-to-view selection.
- `Checkout` (`checkout.dfy`) is the checkout page: the card-number, expiry and CVV formatters, the validity check, and what a simulated payment does to the cart and the counters.
- `Onboarding` (`onboarding.dfy`) is the onboarding page: the genre toggle, the two steps and their saves.
- `BooksApi` (`books_api.dfy`) is the book search service: volume records become book records, and the empty and failure cases of `searchBooks` and `getBookById`.
- `Home` (`home.dfy`) is the home page: query selection and the state its fetch leaves behind.

External services are inputs, written as datatypes of outcomes:

- **Text model reply:** `ModelReply`.
- **Database writes:** `WriteOutcome` and `Write`.
- **Stored profile read:** `ProfileRead`.
- **Sign-in and sign-up results:** `AuthCall`.
- **HTTP fetches:** `SearchFetch` and `VolumeFetch`.

`getCurrencySymbol` and the `code` entries of `COUNTRY_CURRENCY_MAP` come from `src/utils/currencyRates.js`, which is not part of this model. They are the parameter `CurrencyTable`.

## Model

| member | source | states |
|---|---|---|
| Recommendation.NonPostRejected | functions/index.js:31-33 | any method other than POST gets 405 "Method Not Allowed", whatever the body, with no model call and no write |
| Recommendation.Handle | functions/index.js:28-135 | the status is always 200, 400, 405 or 500; a feed entry is written only after the model was asked and replied; 200 exactly when the model was asked, replied and the write succeeded |
| Recommendation.MissingFieldRejected | functions/index.js:34-36 | a POST without a body, or with a falsy prompt, userId or appId, gets 400 with the fixed message, with no model call and no write |
| Recommendation.FullPrompt | functions/index.js:61-71 | the instruction is the fixed introduction, then the user's prompt verbatim, then the fixed format template |
| Recommendation.ValidRequestAnswered | functions/index.js:75-125 | a valid request gets 200 with the parsed record and the unmodified reply; the entry written to `artifacts/<appId>/users/<userId>/feedItems` is tagged "ai_recommendation" and carries the prompt and the same record; its title is non-empty |
| Recommendation.FailuresIndistinguishable | functions/index.js:126-132 | a model failure and a write failure give the same 500 body with the error message; after a model failure nothing is written |
| Recommendation.ScanLines | functions/index.js:85-97 | the line-by-line loop over the non-blank lines computes exactly the specification record `Scan` |
| Recommendation.Scan | functions/index.js:85-97 | the record the loop is meant to build: each field the trimmed rest of the last line carrying its prefix; its meaning is stated by `LastMatchNoneIff`, `LastMatchWins`, `LastMatchSource` and `ScanStep` |
| Recommendation.ParseReply | functions/index.js:83-108 | the whole parse (split, drop blank lines, scan, fallbacks) equals the specification `Parse` |
| Recommendation.Parse | functions/index.js:83-108 | the parsed title is never empty, and author and genre come from the last lines carrying their prefixes whether or not a fallback runs |
| Recommendation.WithFallback | functions/index.js:99-108 | the title is never empty; a record that has a title is kept unchanged; author and genre are always kept; without a title the summary is non-empty unless the reply is empty |
| Recommendation.ScanStep | functions/index.js:86-96 | one more line with a prefix sets exactly that field, to the trimmed rest of the line; an unrecognised line changes nothing |
| Recommendation.PrefixesExclusive | functions/index.js:86-95 | no line starts with two of the five prefixes, so the order of the `else if` chain does not matter |
| Recommendation.LastMatchNoneIff | functions/index.js:85-97 | a field stays absent exactly when no line starts with its prefix |
| Recommendation.LastMatchWins | functions/index.js:85-97 | when several lines carry a prefix, the last of them sets the field |
| Recommendation.LastMatchSource | functions/index.js:85-97 | a field that is set comes from a line carrying its prefix, with no later such line |
| Recommendation.UnrecognisedLineIgnored | functions/index.js:85-97 | inserting a line that starts with none of the prefixes anywhere in the reply leaves the record unchanged |
| Recommendation.BlankLinesIrrelevant | functions/index.js:84 | dropping the lines whose trim is empty does not change the scanned record |
| Recommendation.BlankNotRecognised | functions/index.js:84-86 | a line whose trim is empty carries no prefix |
| Recommendation.ParseTitleNonEmpty | functions/index.js:99-108 | the parsed record always has a non-empty title |
| Recommendation.ParseWithTitle | functions/index.js:99-108 | with a non-empty parsed title the fallbacks do not run and the record is the scan |
| Recommendation.ParseLongFallback | functions/index.js:100-103 | with no title and a reply longer than 50: title "AI Suggestion", summary the first 100 characters plus "...", the fixed why-text, author and genre as parsed |
| Recommendation.ParseShortFallback | functions/index.js:104-108 | with no title and a reply of at most 50: the fixed title, the whole reply as summary, the fixed why-text |
| Recommendation.ParseFormattedReply | functions/index.js:64-97 | a reply in the format the instruction asks for, with non-empty title and clean one-line values, parses back to exactly those five values |
| Recommendation.ParseFiveLines | functions/index.js:84-97 | five recognised lines, one per prefix, joined by newlines, parse to their five values |
| Recommendation.ReplyLinesOfJoin | functions/index.js:84 | splitting a newline-join of non-blank, newline-free lines gives the lines back |
| Recommendation.NonBlankOfNonBlank | functions/index.js:84 | the blank-line filter leaves a list without blank lines unchanged |
| Js.TrimEmptyIffBlank | functions/index.js:84 | `trim() === ""` exactly when every character is white space |
| Js.JoinSplit | functions/index.js:84 | joining the pieces of `split("\n")` with "\n" gives back the text |
| Js.SplitJoin | functions/index.js:84 | splitting a join of separator-free pieces gives back the pieces |
| Js.ReplaceFirstAtStart | functions/index.js:87 | on a line starting with the prefix, `replace(prefix, "")` removes exactly that prefix |
| Js.IndexOf | functions/index.js:87 | the index found is the first occurrence of the pattern, and none means no occurrence |
| Cart.Find | src/contexts/CartContext.jsx:30 | `find` gives nothing exactly when no line has the id |
| Cart.AddToCart | src/contexts/CartContext.jsx:28-38 | one more line exactly when the id was absent; lines with other ids keep their place and value; the id is in the cart afterwards |
| Cart.RemoveFromCart | src/contexts/CartContext.jsx:41-51 | the cart never grows; when the id is absent or its first line has quantity at most 1, no line with the id remains |
| Cart.Bump | src/contexts/CartContext.jsx:31-34 | the length is kept; lines with the id have their quantity moved by the amount (+1 when adding, -1 when removing), every other line is unchanged |
| Cart.Without | src/contexts/CartContext.jsx:49 | the cart never grows and no line with the id remains |
| Cart.AddAbsent | src/contexts/CartContext.jsx:30-36 | adding a book whose id is absent appends one line with quantity 1 at the end; the other lines are unchanged |
| Cart.AddPresent | src/contexts/CartContext.jsx:31-34 | adding a book whose id is present keeps the length, raises that line's quantity by 1 and leaves the other lines as they were |
| Cart.RemoveDecrements | src/contexts/CartContext.jsx:43-47 | removing an id whose first line has quantity above 1 lowers it by 1 and keeps the length and the other lines |
| Cart.RemoveDeletes | src/contexts/CartContext.jsx:43-49 | removing an id whose first line has quantity at most 1 deletes every line with that id and keeps the rest in order |
| Cart.RemoveAbsent | src/contexts/CartContext.jsx:43-49 | removing an absent id changes nothing |
| Cart.WithoutMembers | src/contexts/CartContext.jsx:49 | `filter` keeps exactly the lines with another id |
| Cart.WithoutAppend | src/contexts/CartContext.jsx:49 | `filter` distributes over concatenation, so the order of the kept lines is kept |
| Cart.AddThenRemove | src/contexts/CartContext.jsx:28-51 | adding a book with an absent id and then removing that id restores the cart exactly |
| Cart.AddKeepsValid | src/contexts/CartContext.jsx:28-38 | adding keeps the ids unique and every quantity at least 1 |
| Cart.RemoveKeepsValid | src/contexts/CartContext.jsx:41-51 | removing keeps the ids unique and every quantity at least 1 |
| Cart.ValidCons | src/contexts/CartContext.jsx:28-51 | a cart with a first line is valid exactly when that line has a positive quantity, its id is not in the rest, and the rest is valid |
| Cart.Total | src/contexts/CartContext.jsx:58 | a cart whose prices and quantities are non-negative totals at least 0 |
| Cart.TotalAppend | src/contexts/CartContext.jsx:58 | the total of a concatenation is the sum of the totals |
| Cart.TotalAfterAdd | src/contexts/CartContext.jsx:28-58 | in a valid cart, adding a book raises the total by one unit price: that of the book when new, that of the existing line otherwise |
| Cart.TotalAfterRemove | src/contexts/CartContext.jsx:41-58 | in a valid cart holding the id, removing it lowers the total by that line's unit price |
| Cart.CartStore.constructor | src/contexts/CartContext.jsx:11-14 | the cart starts as the stored cart, or empty |
| Cart.CartStore.Add | src/contexts/CartContext.jsx:28-38 | the new lines are `AddToCart` of the old ones, and validity is preserved |
| Cart.CartStore.Remove | src/contexts/CartContext.jsx:41-51 | the new lines are `RemoveFromCart` of the old ones, and validity is preserved |
| Cart.CartStore.Clear | src/contexts/CartContext.jsx:54-56 | the cart becomes empty and its total 0 |
| Cart.CartStore.OnUserChange | src/contexts/CartContext.jsx:20-24 | with no user the cart is emptied; otherwise it is kept |
| Auth.LoginErrorMessage | src/contexts/AuthContext.jsx:141-146 | 'auth/user-not-found' and 'auth/invalid-credential' give "Invalid email or password.", 'auth/wrong-password' gives "Incorrect password.", and every other code the generic message; both directions of each case |
| Auth.AuthProvider.constructor | src/contexts/AuthContext.jsx:21-28 | the provider starts signed out, not ready, not admin, with no user, instances or app id, and the manual sign-out flag down |
| Auth.RegisterErrorMessage | src/contexts/AuthContext.jsx:214-219 | 'auth/email-already-in-use' and 'auth/weak-password' give their messages, any other code the generic one; both directions |
| Auth.AuthProvider.Login | src/contexts/AuthContext.jsx:121-149 | without the authentication instance: "Authentication service not ready."; otherwise success, or the mapped error message |
| Auth.AuthProvider.Register | src/contexts/AuthContext.jsx:170-222 | not ready, or a refused sign-up with its mapped message, write nothing; an accepted one with database and app id writes the new profile (country '', genres [], '$', 'USD') and counts the user |
| Auth.AuthProvider.AdminLogin | src/contexts/AuthContext.jsx:152-168 | before authReady it fails and changes nothing; the exact constant pair signs the admin in with userId 'admin-1' and the admin profile; anything else fails with "Invalid admin credentials." and changes nothing |
| Auth.AuthProvider.Logout | src/contexts/AuthContext.jsx:224-244 | clears isLoggedIn, isAdmin, user and userId and raises the manual sign-out flag; readiness, instances and app id stay |
| Auth.AuthProvider.SetAuthState | src/contexts/AuthContext.jsx:31-120 | the state `SignInHandled` describes: skipped with no change when the instances are set and the uid is the current userId; otherwise stores the instances and app id (default 'local-dev-booknest'); a user gets the base profile, merged with a stored profile that is found; no user clears the state; authReady ends true; the manual sign-out flag is kept |
| Auth.AuthProvider.AuthStateChanged | src/App.jsx:74-82 | a sign-out after a manual logout only resets the flag and changes nothing else; every other change leaves the state `SignInHandled` describes, the same as `SetAuthState` |
| Auth.LogoutThenSignOutEvent | src/contexts/AuthContext.jsx:224-244 | a logout followed by the listener's sign-out event leaves the session cleared, readiness, instances and app id as they were, and the flag reset |
| Auth.BaseProfile | src/contexts/AuthContext.jsx:57-65 | the first profile of a signed-in user has the uid, the user's email, the display name or 'User', country '', genres [], '$' and 'USD', and no id key |
| Auth.MergeFetchedDerivesCurrency | src/contexts/AuthContext.jsx:80-87 | the merge of the stored profile over the base one takes its currency from the stored country, the same as deriving it from the merged country |
| Auth.MergeFetched | src/contexts/AuthContext.jsx:80-87 | apart from the currency fields the result is the stored profile spread over the base one; the currency comes from the stored country when it is truthy, otherwise '$' and 'USD' |
| Auth.Overlay | src/contexts/AuthContext.jsx:251 | object spread, key by key for all eight keys: a key present in the overlay wins and every other key keeps its old value |
| Auth.OverlayIdempotent | src/contexts/AuthContext.jsx:251 | overlaying the same updates twice is overlaying them once |
| Auth.WithCurrency | src/contexts/AuthContext.jsx:256-262 | only the currency fields change: a truthy country gives its symbol and code (or 'USD'), anything else '$' and 'USD' |
| Auth.CodeOf | src/contexts/AuthContext.jsx:258 | the currency code is never empty, and an unknown country gets 'USD' |
| Auth.CurrencyFromCountryOnly | src/contexts/AuthContext.jsx:256-262 | currency fields passed in never survive: profiles that differ only in them derive the same profile |
| Auth.AuthProvider.UpdatedProfile | src/contexts/AuthContext.jsx:254-262 | the saved profile is the user overlaid with the updates: id, email, name, country and genres from the updates when given and from the user otherwise, uid forced to userId; a truthy resulting country gives its symbol and code, any other '$' and 'USD' |
| Auth.AuthProvider.UpdateUserProfile | src/contexts/AuthContext.jsx:246-272 | without database, userId or appId: "Service not ready." and no change; a failed write: 'Failed to update profile.' and no change; otherwise the user becomes the updated profile |
| Auth.AfterOrder | src/contexts/AuthContext.jsx:280-292 | an accepted update adds 1 order and the total to revenue; a missing document or rejected update leaves users 0, orders 1, revenue 0 |
| Auth.StatsDocument.constructor | src/contexts/AuthContext.jsx:279 | the dashboard counters document starts as given: missing, or holding the given users, orders and revenue |
| Auth.AfterRegister | src/contexts/AuthContext.jsx:196-206 | an accepted update adds 1 user; otherwise users 1, orders 0, revenue 0 |
| Auth.OrdersAccumulate | src/contexts/AuthContext.jsx:280-286 | successive accepted orders raise the order count by their number and the revenue by their sum |
| Auth.RejectedOrderResets | src/contexts/AuthContext.jsx:287-292 | the fallback write ignores the counts kept so far |
| Auth.AuthProvider.IncrementOrderStats | src/contexts/AuthContext.jsx:274-294 | without database or app id nothing changes; otherwise the counters become `AfterOrder` of the old ones |
| Navigation.NextPageCases | src/App.jsx:99-127 | for the effect as written: not ready: 'loading'; admin: 'adminDashboard' from any page, 'adminLogin' included; signed in without a country or genres: 'onboarding'; onboarded: 'login', 'register', 'onboarding', 'adminLogin' and 'adminDashboard' become 'home', every other page stays, 'loading' included; signed out: 'login' unless on 'login', 'register' or 'adminLogin' |
| Navigation.NextPageAsWritten | src/App.jsx:99-127 | the effect as written: once ready it moves to 'loading' only from 'loading', and an admin always goes to 'adminDashboard'; the full case split is `NextPageCases` |
| Navigation.NextPage | src/App.jsx:99-127 | the corrected effect: the page is 'loading' exactly while authentication or Firebase is not ready |
| Navigation.NextPageAsWrittenIdempotent | src/App.jsx:99-128 | the effect as written, applied to its own result, changes nothing, so re-running it on the page change settles |
| Navigation.NextPageIdempotent | src/App.jsx:99-128 | the same fixed point for the corrected rule |
| Navigation.AsWrittenAgreesElsewhere | src/App.jsx:112-121 | the rule as written and the corrected rule agree everywhere except on the loading page of a ready, signed-in, onboarded user |
| Navigation.ReadyLeavesLoading | src/App.jsx:99-127 | once everything is ready the corrected rule never stays on 'loading' |
| Navigation.LoadingStuckAsWritten | src/App.jsx:112-145 | as written, a ready, signed-in, onboarded user on 'loading' stays there and sees only the spinner |
| Navigation.LoadingStuckExample | src/App.jsx:99-121 | a concrete run: pending authentication sets 'loading', then a complete stored profile leaves it there |
| Navigation.OnboardedProfile | src/App.jsx:109 | a profile with a truthy country and a non-empty genre list needs no onboarding |
| Navigation.NeedsOnboarding | src/App.jsx:109 | a missing profile, a falsy country, or missing or empty genres need onboarding; `OnboardedProfile` states the converse for a complete profile |
| Navigation.RenderRules | src/App.jsx:138-163 | 'loading' shows the spinner; otherwise an admin sees the dashboard; a signed-out user sees Login unless the page is 'register' or 'adminLogin'; an unknown page shows Home when signed in, else Login |
| Navigation.RenderPage | src/App.jsx:138-163 | the spinner shows exactly on 'loading'; off 'loading' an admin always sees the dashboard; the other cases are `RenderRules` |
| Navigation.SettledView | src/App.jsx:99-163 | after the effect as written, the view matches the session: dashboard for an admin, onboarding when needed, a sign-in page when signed out; an onboarded user never sees a sign-in page, the dashboard or onboarding, and sees the spinner exactly when the page was 'loading' |
| Navigation.CorrectedSettledView | src/App.jsx:99-163 | with the corrected rule, an onboarded user never sees a sign-in page, the dashboard, onboarding or the spinner once everything is ready |
| Navigation.AppShell.constructor | src/App.jsx:29-31 | the page starts as 'home' with no selected book |
| Navigation.AppShell.InitialiseFirebase | src/App.jsx:33-72 | every start-up path marks the service initialised |
| Navigation.AppShell.NavigationEffect | src/App.jsx:99-127 | the page becomes `NextPageAsWritten` of the old page and the inputs read from the shell and the provider; the selected book and the initialised flag stay |
| Navigation.PageNamed | src/App.jsx:138-162 | a page name gives the page of that name, and an unknown page exactly for a name outside the eleven the shell knows |
| Navigation.PageNamedOfName | src/App.jsx:138-162 | every page the shell can hold is the page of its own name |
| Navigation.AppShell.Navigate | src/App.jsx:130-136 | the page always becomes the page of the given name; the selected book changes only for 'bookDetail' with data |
| Checkout.FormatCardNumberGroups | src/components/Checkout/Checkout.jsx:17-21 | the formatted card number is the grouping in fours of the first sixteen digits of the input |
| Checkout.FormatCardNumber | src/components/Checkout/Checkout.jsx:17-21 | the displayed card number is at most 19 characters (16 digits and three spaces) |
| Checkout.FormatCardNumberProperties | src/components/Checkout/Checkout.jsx:17-21 | at most 19 characters; a space exactly at every fifth position and digits elsewhere; its digits, and the string without spaces, are the first sixteen digits of the input; "" exactly when the input has no digit |
| Checkout.FormatCardNumberIdempotent | src/components/Checkout/Checkout.jsx:17-21 | formatting the displayed card number again changes nothing |
| Checkout.GroupFoursShape | src/components/Checkout/Checkout.jsx:19 | grouping digits puts a single space after every full group of four and nothing else |
| Checkout.GroupFoursDigits | src/components/Checkout/Checkout.jsx:18-19 | the grouped string carries the same digits in the same order |
| Checkout.GroupFoursPrefix | src/components/Checkout/Checkout.jsx:19-20 | the first k groups of the grouping are the grouping of the first 4k digits |
| Checkout.FormatExpiryDateProperties | src/components/Checkout/Checkout.jsx:23-29 | up to two digits as they are; more give the first two, "/", and the next up to two; at most 5 characters, exactly 5 when there are at least four digits |
| Checkout.FormatExpiryDate | src/components/Checkout/Checkout.jsx:23-29 | the displayed expiry keeps only the digits: up to two unchanged, more give the first two, a '/' and the next up to two; at most 5 characters, as `FormatExpiryDateProperties` states |
| Checkout.FormatExpiryDateIdempotent | src/components/Checkout/Checkout.jsx:23-29 | formatting the displayed expiry again changes nothing |
| Checkout.FilterCvvProperties | src/components/Checkout/Checkout.jsx:188 | the stored CVV is digits only, at most three, the first three digits of the input, and is its own filter |
| Checkout.FilterCvv | src/components/Checkout/Checkout.jsx:188 | the stored CVV is at most 3 characters |
| Checkout.ValidDisplayedFields | src/components/Checkout/Checkout.jsx:36-39 | on the displayed values, the payment is valid exactly when card, expiry and CVV carry at least 16, 4 and 3 digits and the holder name is not all white space |
| Checkout.IsValid | src/components/Checkout/Checkout.jsx:36-39 | the validity test of the payment form, on the raw fields: 16 characters other than white space in the card field (letters count too, since the field stores what was typed), a 5-character expiry, a 3-character CVV and a holder name that is not all white space; `ValidDisplayedFields` states what it means for the displayed values |
| Checkout.ShowsEmptyCart | src/components/Checkout/Checkout.jsx:57 | the page shows its empty-cart view for an empty cart unless the payment has just succeeded; `SimulatePayment` states when that happens |
| Checkout.CheckoutPage.constructor | src/components/Checkout/Checkout.jsx:10-15 | all four fields start empty, not processing, with no payment status |
| Checkout.CheckoutPage.ChangeCardHolder | src/components/Checkout/Checkout.jsx:143 | the holder field becomes the typed value; every other field stays |
| Checkout.CheckoutPage.ChangeCardNumber | src/components/Checkout/Checkout.jsx:157 | the card field stores the raw typed value, formatting happens only on display; every other field stays |
| Checkout.CheckoutPage.ChangeExpiryDate | src/components/Checkout/Checkout.jsx:173 | the expiry field stores the raw typed value, formatting happens only on display; every other field stays |
| Checkout.CheckoutPage.ChangeCvv | src/components/Checkout/Checkout.jsx:188 | the CVV field stores the filtered input, digits only, at most three |
| Checkout.CheckoutPage.SimulatePayment | src/components/Checkout/Checkout.jsx:31-57 | valid: status success, cart emptied, counters updated with the cart total from before; invalid: status failure, cart and counters untouched; processing ends false and the form is kept; the empty-cart view never follows a successful payment, and after a declined one it shows exactly when the cart was already empty |
| Onboarding.ToggleAbsent | src/components/Onboarding/Onboarding.jsx:30-33 | toggling a genre that is not selected appends it at the end |
| Onboarding.TogglePresent | src/components/Onboarding/Onboarding.jsx:30-32 | toggling a selected genre removes every occurrence of it, keeps the others in order, and keeps exactly the other values |
| Onboarding.FilterMembers | src/components/Onboarding/Onboarding.jsx:32 | the filter keeps exactly the values other than the genre |
| Onboarding.FilterAppend | src/components/Onboarding/Onboarding.jsx:32 | the filter distributes over concatenation, so it keeps the order |
| Onboarding.Toggle | src/components/Onboarding/Onboarding.jsx:29-35 | after toggling, a genre is selected exactly when it was not selected before |
| Onboarding.ToggleTwice | src/components/Onboarding/Onboarding.jsx:29-35 | toggling an unselected genre twice gives back the list |
| Onboarding.ToggleKeepsNoDup | src/components/Onboarding/Onboarding.jsx:29-35 | toggling keeps the list free of duplicates |
| Onboarding.OnboardingPage.constructor | src/components/Onboarding/Onboarding.jsx:9-12 | country from the profile or '', genres from the profile or [], step 1, not loading |
| Onboarding.OnboardingPage.HandleGenreToggle | src/components/Onboarding/Onboarding.jsx:29-35 | the selection becomes its toggle and stays free of duplicates |
| Onboarding.OnboardingPage.HandleCountryChange | src/components/Onboarding/Onboarding.jsx:25-27 | the country becomes the chosen value; genres, step and loading stay |
| Onboarding.OnboardingPage.HandleNextStep | src/components/Onboarding/Onboarding.jsx:37-50 | step 2 only from step 1 with a country chosen and a successful save, which stores that country; otherwise the step stays; loading ends false after a save |
| Onboarding.OnboardingPage.HandleFinish | src/components/Onboarding/Onboarding.jsx:52-67 | with no genre nothing happens; otherwise it goes home exactly when the genres are saved, and the profile then holds them |
| BooksApi.ToBook | src/services/googleBooksApi.js:26-38 | a volume without volumeInfo gives no book; otherwise the book keeps the volume's id |
| BooksApi.ToBookDefaults | src/services/googleBooksApi.js:28-34 | title or 'No Title Available'; authors joined with ", " or 'Unknown Author'; first category, none for an empty list, or 'General'; thumbnail or the placeholder URL; description or 'No description available.' |
| BooksApi.ToBookHasText | src/services/googleBooksApi.js:28-34 | every book has a non-empty title and description |
| BooksApi.ToBooks | src/services/googleBooksApi.js:26-38 | a successful mapping has one book per volume, in order, each the book of its volume |
| BooksApi.ToBooksFailsIff | src/services/googleBooksApi.js:26-42 | the mapping fails exactly when some volume has no volumeInfo |
| BooksApi.SearchBooks | src/services/googleBooksApi.js:15-43 | an empty query makes no request and gives []; otherwise the request carries the query and limit; a failure, absent items or a volume without volumeInfo give []; otherwise the mapped books |
| BooksApi.SearchKeepsItems | src/services/googleBooksApi.js:26-38 | a successful search returns one book per volume, in order, with the volume's id |
| BooksApi.GetBookById | src/services/googleBooksApi.js:50-79 | a falsy id, a failure, a null body or a missing volumeInfo give null; otherwise the same mapping as the search |
| BooksApi.ByIdAgreesWithSearch | src/services/googleBooksApi.js:63-74 | a volume fetched by id gives the same book as a search returning that volume |
| Home.QuerySources | src/components/Books/Home.jsx:20-26 | a non-empty term verbatim; else the first up to three genres in order joined by " OR "; else 'bestsellers' |
| Home.QueryFor | src/components/Books/Home.jsx:20-26 | the query chosen from the search term and the profile genres; `QuerySources` states its three sources |
| Home.QueryIgnoresLaterGenres | src/components/Books/Home.jsx:23 | genres after the third do not change the query |
| Home.QueryEmptyOnlyForBlankGenre | src/components/Books/Home.jsx:20-28 | the query is empty only when the term is empty and the first genre is itself empty, so otherwise a request is made |
| Home.SearchCallOf | src/components/Books/Home.jsx:28 | the awaited search always resolves, because `searchBooks` catches its own failures, with no books for an empty query |
| Home.HomePage.FetchAndSetBooks | src/components/Books/Home.jsx:16-36 | resolved: the books and no error; rejected: 'Failed to fetch books. Please try again.' and the old books; loading false in every case |
| Home.HomePage.constructor | src/components/Books/Home.jsx:10-13 | no books, not loading, no error, an empty search term |
| Home.HomePage.HandleSearchChange | src/components/Books/Home.jsx:45-47 | the search term becomes the typed value; the books, loading flag and error stay |
| Home.FetchForUser | src/components/Books/Home.jsx:16-36 | with the real search the page ends without error, not loading, showing the books of the query chosen from the term and the user |

## Left out

- Firebase Auth, Firestore and HTTP calls are not modelled as behaviour. Each is an input: an outcome datatype passed to the operation. Server timestamps are not modelled: neither those of the browser code nor the `timestamp` field of the feed entry the cloud function writes (functions/index.js:116). Document paths inside the browser code are not modelled.
- The Gemini model call, the Admin SDK set-up and the CORS wrapper of the cloud function are not modelled. The reply text or the model error is an input.
- The profile snapshot listener is not modelled. It is I/O that re-reads the profile (src/contexts/AuthContext.jsx:297-338).
- localStorage is not modelled. This covers the cart's save effect, the stored cart (an input of the `CartStore` constructor), and the removal of the user's cart key in `logout`.
- Firebase initialisation is reduced to its outcome, the "initialised" flag.
- Timers are not modelled: the two-second payment delay and the 500 ms search debounce. `SimulatePayment` gives the state after the delay, not the intermediate "processing" state. Interleavings of asynchronous effects are not modelled.
- The random price and rating of a book are not modelled. They are nondeterministic floating-point values (src/services/googleBooksApi.js:36-37,72-73).
- All prices, totals and revenue are integers, for example cents, instead of JavaScript floating-point numbers. Currency conversion and display are not modelled.
- Strings are sequences of Unicode scalar values. JavaScript's `length` and `substring` count UTF-16 code units, so the 50- and 100-character limits of the reply fallbacks agree only for replies without characters outside the Basic Multilingual Plane.
- In a profile, a key that is present with the value `undefined` is treated as absent, which is what object spread does. A key holding `null` is treated as absent too, while object spread copies it over the old value.
- The request body's fields are strings or absent. A field of another type is `None`, so a truthy non-string prompt, user id or app id, such as `42`, gets 400 in the model, while the function accepts it.
- `Auth.AuthProvider.Login` does not model the deletion of an anonymous user before sign-in. The signed-in state after a sign-in comes from the sign-in handler, `SetAuthState`.
- `Auth.AuthProvider.Register`: a failure of the profile write, or of the fallback counter write, is not modelled. Every write of a sign-up is taken to succeed except the counter increment.
- `Auth.AuthProvider.SetAuthState`: a failure of the default-profile write for a missing stored profile is not separated from success. In both cases the base profile stays the user.
- `Auth.AuthProvider.IncrementOrderStats`: a failure of the fallback write is not modelled.
- `Home.HomePage.FetchAndSetBooks`: its rejection branch is kept, but no input reaches it. `searchBooks` catches every error itself, as `Home.SearchCallOf` shows.
- `Checkout.CheckoutPage.SimulatePayment` takes the sign-in state into account only through `hasDb` and `appId`, as `incrementOrderStats` does.
- The rendering of the pages is not modelled, beyond which view the shell selects. The admin dashboard, profile page, cart page, chat modal and navigation bar are pure UI.

## Findings

| source | as written | input that shows it | evidently intended | confidence | as-written member | corrected member |
|---|---|---|---|---|---|---|
| src/App.jsx:112-121 | a signed-in, onboarded user is sent home only from 'login', 'register', 'onboarding', 'adminLogin' and 'adminDashboard', so the 'loading' page, which the effect itself sets while authentication is pending, is never left by the effect (only the navigation bar's buttons can leave it) | a returning user with a stored country and genres: the page is 'loading' while authentication is pending, then authReady becomes true with `isLoggedIn` and the complete profile, and the page stays 'loading' with the spinner | once everything is ready, the shell leaves 'loading' for 'home' | medium, not executed | Navigation.LoadingStuckAsWritten | Navigation.ReadyLeavesLoading |

`NextPageAsWritten` is the rule exactly as the source writes it, and the shell's `NavigationEffect` runs it. The corrected rule `NextPage` adds 'loading' to the pages an onboarded user is sent home from; `Navigation.ReadyLeavesLoading` and `Navigation.CorrectedSettledView` are proved about it. `Navigation.AsWrittenAgreesElsewhere` shows that the two rules differ only in this case.
