# Portfolio site: payment, contact, sign-in and page rules in Dafny

This project models the small amount of logic in a personal-portfolio web
site built with Next.js. It covers:

- the **payment-intent endpoint**. POST validates a bKash/Nagad payment
  claim and records it as `pending`. A delayed step marks it `completed`.
  GET looks a payment up by id.
- the **contact endpoint**. POST stores a message. GET lists the 50 newest
  messages, newest first.
- the **string utilities**: the email and Bangladeshi-phone validators and
  the password-hashing stub.
- the **credentials sign-in**: `authorize` and the `jwt` / `session`
  callbacks.
- the **payment modal's** three-step form.
- the **session gate** of the profile and dashboard pages, plus the profile
  form rules.
- three small page rules: `navigate`, the portfolio category filter and the
  rotating home-page headline.

Everything is pure functions over immutable datatypes. The database is a
`map<Id, Payment>` for payments and a `seq<Contact>` for contact messages.
The database supplies ids, timestamps and failures, so these are parameters:
- `newId`: the id the database assigns. For payments it must not be in the
  store yet.
- `now`: the creation time.
- `storeOk`: false when the database call throws. This models the
  `StorageError` branch.

A request body is `Option<...>`. `None` is a body that cannot be
destructured, which the handler's `catch` turns into a 500. Each JSON field
is `Option<string>`, where `None` is missing or null. `Js.Truthy` and
`Js.Or` give JavaScript's `!x` and `x || fallback` for such values.

Each module follows one source file:
- `Utils`: `src/lib/utils.ts`
- `PaymentRoute`: `src/app/api/payment/route.ts`
- `ContactRoute`: `src/app/api/contact/route.ts`
- `Auth`: `src/lib/auth.ts`
- `PaymentModal`: `src/components/PaymentModal.tsx`
- `ProfilePage`, `DashboardPage`: the two account pages
- `SessionGate`: the decision both account pages share
- `Navigation`: `src/hooks/useNavigation.ts`
- `Portfolio`: `src/app/portfolio/page.tsx`
- `Home`: `src/app/page.tsx`

The validators are written as character-level readers of their regular
expressions:
- email is a left-to-right scanner (`Utils.EmailRun`);
- phone is an anchored sequence of character classes
  (`Utils.PhonePattern`).

Each reader is proved equivalent to a structural description of the strings
it accepts.

Points where the code's behaviour is easy to misread:
- The code does not reject a non-numeric amount, so neither does the model.
- Unlike the dashboard, the profile page keeps showing the loading view when
  the status resolves with no session, because only the session path clears
  `isLoading`.
- The initial `pending` status comes from a database schema that is not part
  of this model. The POST response asserts it, so new records start
  `Pending`.

## Model

| member | source | states |
|---|---|---|
| `Utils.HashPassword` | src/lib/utils.ts:4-7 | the "hash" is the password itself (no hashing happens) |
| `Utils.ValidateEmailCharacterisation` | src/lib/utils.ts:10-13 | the email check accepts a string iff it has no whitespace, exactly one '@', a non-empty part before the '@', and a '.' after the '@' that is neither the first nor the last character of that part |
| `Utils.EmailAcceptedSample` | src/lib/utils.ts:11 | "a@b.co" is accepted |
| `Utils.EmailNoDotSample` | src/lib/utils.ts:11 | "a@b." is refused: no dot that is followed by another character |
| `Utils.EmailEmptyLocalSample` | src/lib/utils.ts:11 | "@b.co" is refused: empty local part |
| `Utils.MatchesAnchoredPointwise` | src/lib/utils.ts:17 | an anchored fixed-length class pattern matches iff the lengths agree and every character is in the class at its position |
| `Utils.ValidateBangladeshiPhoneCharacterisation` | src/lib/utils.ts:16-19 | the phone check accepts a string iff it is 14 characters long, starts with "+8801", has an operator digit 3..9 at index 5, and ends with 8 ASCII digits |
| `Utils.PhoneNoCountryCodeSample` | src/lib/utils.ts:17 | "01712345678" (no +880) is refused |
| `Utils.PhoneBadOperatorSample` | src/lib/utils.ts:17 | "+8801212345678" (operator digit 2) is refused |
| `Utils.PhoneAcceptedSample` | src/lib/utils.ts:17 | "+8801712345678" is accepted |
| `PaymentRoute.ParseMethod` | src/app/api/payment/route.ts:17 | a method is accepted iff its lower-cased name is "bkash" or "nagad", and the accepted method's stored name is that lower-cased text |
| `PaymentRoute.Post` | src/app/api/payment/route.ts:4-63 | an unreadable body or failed write gives 500 and leaves the store alone; any of the five required fields missing or empty gives 400 "All payment fields are required" with the store unchanged; otherwise an unknown method gives 400 with the store unchanged; the response is 200 iff all checks and the write succeed; on 200 exactly one record is added under the new id, with the response naming that id and status "pending", the method lower-cased, service, amount, phone and transaction id verbatim, userId defaulted to "anonymous", and status Pending |
| `PaymentRoute.Complete` | src/app/api/payment/route.ts:40-46 | the completion step sets the record's status to Completed, changes no other field and no other record, and keeps the key set; an unknown id changes nothing |
| `PaymentRoute.Get` | src/app/api/payment/route.ts:66-97 | a missing or empty id gives 400; a failed read gives 500; an id not in the store gives 404; the response is 200 iff the id is stored, and then it carries the stored record unchanged; the store is never modified (Get returns no store) |
| `PaymentRoute.StepsKeepStoreWellFormed` | src/app/api/payment/route.ts:17-46 | POST and completion keep every stored record keyed by its own id with a method named "bkash" or "nagad" |
| `PaymentRoute.CompletionIsForwardOnly` | src/app/api/payment/route.ts:40-46 | completing twice equals completing once, and no POST or completion turns a completed payment back to pending |
| `PaymentRoute.InitiateThenLookUp` | src/app/api/payment/route.ts:25-89 | a lookup right after a successful POST returns the record as pending; after the completion step it returns the same record with status completed |
| `PaymentRoute.MethodNamesRoundTrip` | src/app/api/payment/route.ts:17-28 | a stored method name parses back to the same method; "bKash" and "NAGAD" are accepted as bkash and nagad, "paypal" is refused |
| `PaymentRoute.InitiationScenarios` | src/app/api/payment/route.ts:9-54 | a guest "bKash" request succeeds and stores a pending "bkash" payment owned by "anonymous"; the same request with "paypal" gives 400 and stores nothing |
| `ContactRoute.Post` | src/app/api/contact/route.ts:4-40 | an unreadable body or failed write gives 500 "Failed to send message"; a missing or empty name, email, subject or message gives 400 "All fields are required"; in every non-200 case the store is unchanged; on 200 "Message sent successfully!" exactly one record is appended, carrying the four inputs, the new id and the creation time |
| `ContactRoute.Recent` | src/app/api/contact/route.ts:45-50 | the listing holds min(50, n) records, ordered by creation time non-increasing, taken from the store (sub-multiset), and every stored record left out is no newer than every record listed |
| `ContactRoute.List` | src/app/api/contact/route.ts:43-59 | a failed read gives 500 "Failed to fetch contacts"; otherwise 200 with the newest-first listing |
| `ContactRoute.FirstListedIsNewest` | src/app/api/contact/route.ts:45-50 | the first listed record is at least as new as every stored record |
| `ContactRoute.SubmittedIsListedFirst` | src/app/api/contact/route.ts:17-52 | a submission newer than everything stored is listed first, with exactly the submitted fields |
| `ContactRoute.EmptyNameScenario` | src/app/api/contact/route.ts:9-14 | a submission with an empty name gives 400 "All fields are required" and stores nothing, whether or not the database would work |
| `Auth.EmailPrefix` | src/lib/auth.ts:20 | the derived name is a prefix of the email, contains no '@', and is followed by '@' when the email has one; without an '@' it is the whole email |
| `Auth.Authorize` | src/lib/auth.ts:12-24 | a user is returned iff both email and password are present and non-empty; the user has id "1", the email unchanged, and the email prefix as name |
| `Auth.JwtCallback` | src/lib/auth.ts:34-39 | with a user the token gains `id` = user id and keeps every other claim; without a user the token is unchanged |
| `Auth.SessionCallback` | src/lib/auth.ts:40-48 | the session's fields and every user field except `id` are kept, a missing user becomes an object with only `id`, and `id` is the token's id (undefined if the token has none) |
| `Auth.SignInExposesUserId` | src/lib/auth.ts:34-48 | after a successful authorize, the jwt and session callbacks give a session user with id "1" and keep its other fields |
| `Auth.EmailPrefixSplits` | src/lib/auth.ts:20 | an email with an '@' is its derived name, '@', and the rest |
| `Auth.EmailPrefixSamples` | src/lib/auth.ts:20 | "ab@c.d" yields the name "ab" and "@x" yields the empty name |
| `PaymentModal.Handle` | src/components/PaymentModal.tsx:18-226 | close resets to the initial state and is the only event that calls onClose; a hidden or disabled control changes nothing; choosing a method changes only the choice; Back returns to step 1 keeping method, phone and transaction id; an enabled Continue moves to step 2 and an enabled Confirm to step 3, changing nothing else; the phone and transaction-id inputs each set only their own field; step 3 is entered only by Confirm from step 2 with both details non-empty; step 2 is entered only by Continue with a method chosen |
| `PaymentModal.HandleKeepsConsistent` | src/components/PaymentModal.tsx:73-207 | every event keeps the invariant "past step 1 a method is chosen; on step 3 phone and transaction id are non-empty" |
| `PaymentModal.ReachableIsConsistent` | src/components/PaymentModal.tsx:16-207 | every state reached by any event sequence keeps the invariant and has step number 1, 2 or 3 |
| `PaymentModal.InitialIsConsistent` | src/components/PaymentModal.tsx:13-16 | the initial state has no method, empty phone and transaction id and step 1, and everything reachable from it is consistent |
| `PaymentModal.HappyPath` | src/components/PaymentModal.tsx:88-191 | choosing, continuing, entering both non-empty details and confirming reaches step 3 with those details |
| `SessionGate.Decide` | src/app/profile/page.tsx:28-52 | while loading the effect waits; a resolved status without a session redirects; with a session it admits with the session name or "User" and the session email or "" |
| `SessionGate.Pushes` | src/app/profile/page.tsx:31-32 | a redirect pushes exactly "/login" once; no other decision pushes anything |
| `ProfilePage.AuthEffect` | src/app/profile/page.tsx:28-52 | while loading nothing changes and nothing is pushed; without a session "/login" is pushed and the state is untouched; with a session the profile and the form both become the session profile (name or "User", email or "", fixed phone, location and bio, today's date, no image) and loading ends |
| `ProfilePage.Render` | src/app/profile/page.tsx:126-139 | the loading view shows iff the status is loading or the page is still loading; nothing is rendered iff neither holds and there is no session |
| `ProfilePage.NoSessionKeepsLoading` | src/app/profile/page.tsx:24-139 | from the initial state, a resolved status without a session pushes "/login" and the loading view keeps rendering |
| `ProfilePage.SessionShowsPage` | src/app/profile/page.tsx:34-139 | with a session, one run of the effect takes the page from the loading view to the profile view |
| `ProfilePage.HandleChange` | src/app/profile/page.tsx:60-65 | the named form field takes the new value and every other form field, the profile and the flags stay unchanged |
| `ProfilePage.HandleSave` | src/app/profile/page.tsx:54-58 | the profile becomes the form contents and editing ends |
| `ProfilePage.ToggleEditing` | src/app/profile/page.tsx:236 | the edit button flips the editing flag and changes nothing else |
| `ProfilePage.HandleImageUpload` | src/app/profile/page.tsx:68-95 | with no file, a type not starting with "image/", or a size over 5·1024·1024 bytes nothing changes; otherwise the picture URL is set in both the profile and the form and nothing else changes |
| `ProfilePage.EditThenSave` | src/app/profile/page.tsx:54-65 | editing one field and saving changes exactly that profile field and ends editing |
| `ProfilePage.UploadSurvivesSave` | src/app/profile/page.tsx:54-88 | an accepted picture is still the profile picture after a later save |
| `ProfilePage.ToggleTwice` | src/app/profile/page.tsx:236 | pressing the edit button twice restores the page state |
| `ProfilePage.DefaultPhoneIsValid` | src/app/profile/page.tsx:37 | the profile's default phone number passes the Bangladeshi phone check |
| `DashboardPage.InitialState` | src/app/dashboard/page.tsx:12-23 | the dashboard starts with user "Guest", empty email, and four statistics, each 0 |
| `DashboardPage.AuthEffect` | src/app/dashboard/page.tsx:29-41 | the statistics are never touched; while loading nothing happens; without a session "/login" is pushed; with a session the user becomes the session name or "User" and the session email or "" |
| `DashboardPage.Render` | src/app/dashboard/page.tsx:44-58 | the loading view shows iff the status is loading, nothing iff it has resolved without a session, the dashboard iff there is a session |
| `DashboardPage.NoSessionRendersNothing` | src/app/dashboard/page.tsx:28-58 | from the initial state, a resolved status without a session pushes "/login", leaves the state unchanged and renders nothing |
| `DashboardPage.StatsStayZero` | src/app/dashboard/page.tsx:18-41 | however often the effect runs, the four statistics stay 0 |
| `Navigation.Navigate` | src/hooks/useNavigation.ts:9-14 | navigating to the current path pushes nothing; any other path is pushed exactly once; nothing but the target is ever pushed |
| `Navigation.NavigateIsIdempotent` | src/hooks/useNavigation.ts:10-13 | once the push is followed, the same call again pushes nothing |
| `Portfolio.OfCategory` | src/app/portfolio/page.tsx:11 | a project is kept iff it is in the list and has the category; the result is an order-preserving subsequence |
| `Portfolio.OfCategoryKeepsMultiplicity` | src/app/portfolio/page.tsx:11 | each project of the category occurs in the filtered list exactly as often as in the full list, and no other project occurs |
| `Portfolio.Filtered` | src/app/portfolio/page.tsx:9-11 | "all" gives the list unchanged; any other filter keeps exactly the projects of that category, as an order-preserving subsequence |
| `Portfolio.CategoriesPartition` | src/app/portfolio/page.tsx:190-253 | when every category is web, design or other, the three filters' results together have exactly as many projects as the list |
| `Portfolio.ProjectsArePartitioned` | src/app/portfolio/page.tsx:7-253 | the page's six projects are split exactly by the web, design and other filters, and the initial filter shows them all |
| `Portfolio.Capitalise` | src/app/portfolio/page.tsx:65 | a label has the same length as the filter name, its first character upper-cased and the rest unchanged |
| `Portfolio.CapitaliseIsUndoneByLower` | src/app/portfolio/page.tsx:65 | for a filter name already in lower case, lower-casing its label gives the name back |
| `Portfolio.FilterLabels` | src/app/portfolio/page.tsx:65 | the filter buttons read "All", "Web", "Design", "Other" |
| `Home.Tick` | src/app/page.tsx:17-22 | one tick moves to the next headline and wraps from the last to the first, so the index stays below 3 |
| `Home.TicksFromStart` | src/app/page.tsx:9-35 | after n ticks from the start the index is n mod 3, so the headline shown is always defined |
| `Home.ThreeTicksReturn` | src/app/page.tsx:19 | three ticks bring the index back to where it was |

## Left out

- Persistence: the database client is a null placeholder in the code, so the stores are plain values. Ids, timestamps and failures are parameters.
- The 5-second timer that completes a payment runs concurrently. It is modelled as the explicit `PaymentRoute.Complete` step. A failure of that update is a rejection the handler does not catch and that never reaches the caller, so it is not modelled.
- `parseFloat` of the amount is floating point. The amount is kept as the text the client sent.
- A JSON field of a non-string type is not modelled. For example, a numeric amount 0 is falsy, and a numeric method makes `toLowerCase` throw into the 500 branch.
- PaymentRoute.ParseMethod: uses the ASCII case mapping only. JavaScript's `toLowerCase` also maps non-ASCII letters, such as the Kelvin sign to "k", so a few exotic spellings of "bkash" that the code accepts are refused here.
- Portfolio.Capitalise: uses the ASCII case mapping only. The same-length property fails under full Unicode upper-casing (for example "ß" becomes "SS"). All four real filter names are ASCII.
- The regular-expression engine is not modelled. The two validators are their character-level readings; `\s` is the ECMAScript whitespace and line-terminator set.
- HTTP and JSON plumbing, response construction, console logging, `alert`, `confirm` and `URL.createObjectURL` are left out. The object URL is a parameter.
- next-auth internals are left out: JWT signing, the session provider and `signOut`.
- Router internals are left out. A push is recorded as a path in a list.
- Date formatting (`toLocaleDateString`, `toISOString`) is left out. The formatted date is a parameter.
- The profile page's settings handlers are left out. They only set a modal name and clear it on a timer.
- The payment modal's `isOpen` prop is left out, as is the `alert` in `handlePayment`.
- ContactRoute.List: the listing puts records with equal creation times in insertion order. The database's `orderBy createdAt desc` leaves the order of such ties unspecified; the properties of `ContactRoute.Recent` hold whatever the tie order.
- Presentation and static content are left out: the header, footer, menu, loading and background components, the static pages, the contact page's form, and all animation.
