# NextOpenImpact decision rules in Dafny

This project models the decision logic of the NextOpenImpact Next.js application:

- **Configuration checker.** It works out the deployment context from the environment variables. Four validators then report issues and recommendations, and a configuration guide is rendered from the result.
- **Registration route.** `POST /api/auth/register` runs over the mock Prisma store. The model covers its field checks, password hashing, account-type defaulting, company fields and response projection.
- **Routing diagnostics.** This is an in-memory event log with an environment issue detector and an analysis of the logged routes.
- **Authentication modal.** Its shared state (open, panel, account type) and the login and signup submit handlers.
- **Client-side gates.** The dashboard layout and pages, the public demo page, and the widgets' colour and badge rules.

## How it is modelled

The modules follow the source files:

| Module | Source file |
|---|---|
| `ConfigChecker` | `lib/config-checker.ts` |
| `MockPrisma` | `lib/prisma.ts` |
| `RegisterRoute` | `app/api/auth/register/route.ts` |
| `Diagnostics` | `lib/routing-diagnostics.ts` |
| `AuthModalContext` | `lib/auth-modal-context.tsx` |
| `AuthModal` | `components/AuthModal.tsx` |
| `DashboardLayout` | `components/DashboardLayout.tsx` |
| `DashboardPages` | `app/dashboard/page.tsx` and `app/dashboard/company/page.tsx` |
| `DemoPage` | `app/dashboard/demo/page.tsx` |
| `DashboardWidgets` | `components/DashboardWidgets.tsx` |

Two shared modules support them:

- `Common` holds the JavaScript semantics the source relies on: truthiness, `||` defaults, template interpolation of `undefined`, `includes`, `startsWith`, and the decimal rendering of a number.
- `Auth` holds the session shape, the three-way render gate, and the side effects React effects perform.

Code that changes state step by step is imperative Dafny:

- The caller-owned `issues` and `recommendations` arrays are the `Collector` class. The validators push onto it.
- The diagnostics log is a class with a `seq` buffer. `getEventHistory` returns a fresh array.
- The modal provider's three state cells are a class. The form components' `useState` cells are the `LoginForm` and `SignupForm` classes.
- The string-building loops of the guide are `while` loops.
- The `select` projection of `create` is a loop over the selection's keys.

Each such method is proved against a pure specification function. The properties of that function are lemmas.

- `Validation` specifies the four validators together.
- `GuideText` specifies the guide.
- `Run` specifies the modal's state after a sequence of operations.
- `PathCounts`, `Redirects` and `Unauthenticated` specify the route analysis.

React effects are modelled as ordered lists of `Effect` values, so that "opens the modal, then navigates" is a statement about list positions.

Some things the code cannot see or control are parameters:

- The process environment, as a map from name to value, where a missing key stands for `undefined`.
- Whether `new URL(s)` succeeds (`urlParses`).
- The bcrypt hash (`hash`, `None` when it throws).
- The parsed request body (`None` when `request.json()` throws).
- The user lookup's result.
- The clock (`now`, `timestamp`).
- The browser's referrer and user agent.
- Whether code runs in a browser (`isClient`).
- The outcomes of `signIn` and `fetch`.

## Model

| member | source | states |
|---|---|---|
| ConfigChecker.GetDeploymentContext | lib/config-checker.ts:25-54 | Platform is Vercel iff VERCEL_URL or VERCEL_ENV is truthy, local iff neither is truthy and NODE_ENV is development, else other. Environment is production or preview exactly when VERCEL_ENV says so, with base URL `https://` + VERCEL_URL. Development follows from NODE_ENV, with base URL NEXTAUTH_URL or the localhost origin. Otherwise the environment is unknown with the localhost origin. |
| ConfigChecker.ContextIsConsistent | lib/config-checker.ts:35-51 | A production or preview context is always on Vercel, and a local platform always means development. |
| ConfigChecker.Collector.constructor | lib/config-checker.ts:60-61 | The two lists start empty. |
| ConfigChecker.Collector.PushIssue | lib/config-checker.ts:91 | Appends one issue and leaves the recommendations alone. |
| ConfigChecker.Collector.PushRecommendation | lib/config-checker.ts:92 | Appends one recommendation and leaves the issues alone. |
| ConfigChecker.ValidateNextAuthUrl | lib/config-checker.ts:83-115 | Appends exactly the NEXTAUTH_URL report to both lists and removes nothing. |
| ConfigChecker.ValidateApiUrl | lib/config-checker.ts:117-140 | Appends exactly the API URL report to both lists and removes nothing. |
| ConfigChecker.ValidateOAuthConfig | lib/config-checker.ts:142-164 | Appends exactly the OAuth report to both lists and removes nothing. |
| ConfigChecker.ValidateEnvironmentConsistency | lib/config-checker.ts:166-189 | Appends exactly the consistency and secret report to both lists and removes nothing. |
| ConfigChecker.ValidateConfiguration | lib/config-checker.ts:59-81 | The result is the four reports concatenated in order. isValid holds iff there are no issues, and there are at least as many recommendations as issues. |
| ConfigChecker.RecommendationsCoverIssues | lib/config-checker.ts:83-189 | Every issue comes with a recommendation, so the recommendations are at least as many as the issues. |
| ConfigChecker.MissingNextAuthUrlShortCircuits | lib/config-checker.ts:90-94 | A missing NEXTAUTH_URL gives exactly one issue and one recommendation. It is the first issue of the validation, and the localhost and URL-format checks do not fire. |
| ConfigChecker.NextAuthUrlProductionChecks | lib/config-checker.ts:97-114 | With NEXTAUTH_URL set, the localhost issue is reported iff in production with "localhost" in the URL. The HTTP issue is reported iff in production with an `http:` prefix. The format issue is reported iff the URL does not parse. Outside production only the format issue can appear. |
| ConfigChecker.AbsoluteApiUrlOnlyRecommended | lib/config-checker.ts:124-139 | A set API URL starting with `http` earns the relative-path recommendation, iff, and never as an issue. A set API URL gives an issue iff it contains localhost in production. |
| ConfigChecker.SecretIssueOnlyInProduction | lib/config-checker.ts:180-188 | A missing or placeholder NEXTAUTH_SECRET is an issue iff in production. Elsewhere it adds the hint recommendation and leaves at most the mismatch issue. |
| ConfigChecker.ValidIffEveryValidatorSilent | lib/config-checker.ts:76-80 | The configuration is valid iff none of the four validators reported an issue. |
| ConfigChecker.EnvironmentTemplates | lib/config-checker.ts:226-252 | The templates always open with their heading. The development block follows iff the environment is development, and the text ends with the production block iff the environment is production or the platform is Vercel. |
| ConfigChecker.TemplateHeadingsDiffer | lib/config-checker.ts:227-249 | The development and production blocks differ at the first letter of their titles. |
| ConfigChecker.TemplatesFacts | lib/config-checker.ts:227-249 | The prefix and suffix facts behind the templates' contract, for every combination of the two conditions. |
| ConfigChecker.AppendNumbered | lib/config-checker.ts:207-219 | The `forEach` loop appends exactly the numbered list `1. a`, `2. b`, … to the text. |
| ConfigChecker.GenerateConfigurationGuide | lib/config-checker.ts:194-224 | The guide is the context header, then the numbered issues and recommendations sections (each left out when empty), then the templates. |
| ConfigChecker.SectionOpensWithHeading | lib/config-checker.ts:205-219 | A non-empty section of the guide begins with its heading. |
| ConfigChecker.OpensAwayFromIssues | lib/config-checker.ts:205-221 | With no issues, the text after the header differs from the issues heading at a fixed position, whether or not there are recommendations. |
| ConfigChecker.BodyWithoutIssues | lib/config-checker.ts:205-221 | A guide with no issues does not begin with the issues heading. |
| ConfigChecker.BodyOpensWithIssues | lib/config-checker.ts:205-211 | After the header, the guide starts with the issues heading when there are issues, and differs from it at a fixed position otherwise. |
| ConfigChecker.GuideFlagsIssuesIffInvalid | lib/config-checker.ts:198-211 | The guide opens with the context header, and the issues heading follows it iff there are issues. |
| Common.NatToStringRoundTrip | lib/prisma.ts:40 | The decimal rendering of a number reads back as that number. |
| Common.NatToStringInjective | lib/prisma.ts:40 | Different numbers render differently. |
| MockPrisma.Fields | lib/prisma.ts:41 | The record's own fields are name, email, password and account type, plus the four company keys exactly when company details are given. Each holds its input value, and none is called id. |
| MockPrisma.Record | lib/prisma.ts:39-42 | The created record has the input's keys plus id, carries every input field unchanged, and its id starts with `mock-id-`. |
| MockPrisma.RecordIdEncodesClock | lib/prisma.ts:40 | Two records with the same id were made at the same clock reading. |
| MockPrisma.FindUnique | lib/prisma.ts:30-33 | The lookup never finds a user. |
| MockPrisma.Create | lib/prisma.ts:34-57 | Without a selection it returns the full record, password included. With one, the result's keys are exactly the selection keys flagged true, and each holds the record's value for that key. |
| RegisterRoute.Register | app/api/auth/register/route.ts:5-71 | An unreadable body gives 500. A missing name, email or password gives 400 with no lookup. An existing user gives 400 and nothing is created. A failing hash gives 500. Otherwise the route answers 201, having stored the hashed password and the account type (defaulting to general), with the company fields iff the type is company. It returns exactly id, name, email and account type, without the password. |
| RegisterRoute.MockStoreNeverRejectsDuplicate | app/api/auth/register/route.ts:17-24 | With the mock store's lookup, a complete request whose hash succeeds is always answered 201. |
| RegisterRoute.RegisterOutcome | app/api/auth/register/route.ts:9-70 | The route only ever answers 201, 400 or 500. |
| Diagnostics.EnvironmentInfoOf | lib/routing-diagnostics.ts:42-53 | Each field of the environment info is the environment variable of the same name. |
| Diagnostics.MakeEvent | lib/routing-diagnostics.ts:58-73 | The event keeps its name, path and data. The session status defaults to "unknown". Referrer and user agent read "server" off the client and come from the browser on it. |
| Diagnostics.CheckEnvironmentIssues | lib/routing-diagnostics.ts:114-138 | Each localhost issue is reported iff that URL contains localhost and VERCEL_ENV is production. Each missing issue is reported iff that URL is unset. The mismatch is reported iff NODE_ENV differs from NEXT_PUBLIC_ENVIRONMENT, and it is the only mismatch entry. The list is the checks' findings in the order they run. |
| Diagnostics.IssuesForReported | lib/routing-diagnostics.ts:114-138 | Each kind of issue is in the list iff its condition holds. |
| Diagnostics.IssuesForSingleMismatch | lib/routing-diagnostics.ts:136-138 | The only mismatch entry in the list is the one built from the two environment names. |
| Diagnostics.CountPaths | lib/routing-diagnostics.ts:169-172 | The loop over the log builds the per-path count map. |
| Diagnostics.FilterRedirects | lib/routing-diagnostics.ts:177 | The loop over the log keeps exactly the redirect events, in order. |
| Diagnostics.FilterUnauthenticated | lib/routing-diagnostics.ts:183 | The loop over the log keeps exactly the unauthenticated events, in order. |
| Diagnostics.Paths | lib/routing-diagnostics.ts:169-172 | The paths of the events, position by position. |
| Diagnostics.PathCountsAreOccurrences | lib/routing-diagnostics.ts:169-172 | A path has a count iff it was visited, and its count is its number of occurrences in the log. |
| Diagnostics.TotalRemove | lib/routing-diagnostics.ts:169-172 | The sum of a count map can be taken starting from any key. |
| Diagnostics.PathCountsTotal | lib/routing-diagnostics.ts:169-172 | The per-path counts add up to the number of logged events. |
| Diagnostics.Redirects | lib/routing-diagnostics.ts:177 | The redirect events are exactly the logged events whose name contains "redirect". |
| Diagnostics.Unauthenticated | lib/routing-diagnostics.ts:183 | The unauthenticated events are exactly the logged events with that session status. |
| Diagnostics.RedirectsKeepMultiplicity | lib/routing-diagnostics.ts:177-178 | Each redirect event is kept as many times as it was logged and no other event is kept, so the loop verdict counts every redirect. |
| Diagnostics.UnauthenticatedKeepMultiplicity | lib/routing-diagnostics.ts:183-184 | Each unauthenticated event is kept as many times as it was logged and no other event is kept, so the reported count counts every attempt. |
| Diagnostics.RedirectsOnlyGrow | lib/routing-diagnostics.ts:177-178 | Logging more events never lowers the redirect count, so a detected loop stays detected until the log is cleared. |
| Diagnostics.RoutingDiagnostics.constructor | lib/routing-diagnostics.ts:32-37 | The log starts empty and the client flag is the one given. |
| Diagnostics.RoutingDiagnostics.LogRoutingEvent | lib/routing-diagnostics.ts:58-75 | Appends exactly one event at the end of the log, and earlier entries stay as they were. |
| Diagnostics.RoutingDiagnostics.GetEventHistory | lib/routing-diagnostics.ts:151-153 | Returns a new array equal to the log. |
| Diagnostics.RoutingDiagnostics.ClearEventHistory | lib/routing-diagnostics.ts:158-160 | The log is empty afterwards. |
| Diagnostics.RoutingDiagnostics.AnalyzeRoutingPatterns | lib/routing-diagnostics.ts:165-189 | The path counts are the fold over the log and sum to its length. The redirect count is the number of redirect events, and the loop warning fires iff that count exceeds 3. The unauthenticated count is the number of unauthenticated events. |
| Diagnostics.HistoryIsACopy | lib/routing-diagnostics.ts:151-153 | The returned history is a fresh array, so the caller may write into it without any `modifies` on the diagnostics object. |
| AuthModalContext.Step | lib/auth-modal-context.tsx:21-32 | Opening sets the panel and opens, and closing clears the panel and closes. Neither touches the account type, and choosing an account type touches nothing else. |
| AuthModalContext.ReachableStatesAreConsistent | lib/auth-modal-context.tsx:17-29 | In every state reachable from the initial one, the modal is open iff a panel is chosen. |
| AuthModalContext.AccountTypeIsLastChoice | lib/auth-modal-context.tsx:19-32 | The account type is always the one chosen last, or general if none was chosen. |
| AuthModalContext.AuthModalProvider.constructor | lib/auth-modal-context.tsx:17-19 | The provider starts closed, with no panel and the general account type. |
| AuthModalContext.AuthModalProvider.OpenModal | lib/auth-modal-context.tsx:21-24 | Sets the panel and opens, leaving the account type; the state stays the run of the recorded operations. |
| AuthModalContext.AuthModalProvider.CloseModal | lib/auth-modal-context.tsx:26-29 | Closes and clears the panel, leaving the account type. |
| AuthModalContext.AuthModalProvider.SetAccountType | lib/auth-modal-context.tsx:19-32 | Changes only the account type. |
| AuthModalContext.AuthModalProvider.OpenIffPanelChosen | lib/auth-modal-context.tsx:17-29 | Whatever happened before, the provider is open iff a panel is chosen. |
| AuthModalContext.UseAuthModal | lib/auth-modal-context.tsx:38-44 | Without a provider the hook fails with its message; with one it returns that provider. |
| Auth.AccountTypeOf | components/DashboardLayout.tsx:68 | The account type is the session user's one if truthy, else general; never empty. |
| Auth.Gate | app/dashboard/page.tsx:53-66 | A spinner iff the session is loading, nothing iff it has loaded without a session, the content otherwise. |
| AuthModal.RedirectEffect | components/AuthModal.tsx:19-26 | The modal acts iff authenticated with a session while open, and then it closes itself before going to the dashboard. |
| AuthModal.RenderModal | components/AuthModal.tsx:28-52 | A closed modal renders nothing. An open one shows the chosen panel with its title: "Welcome Back", "Create Account", "Choose Account Type", or none without a panel. |
| AuthModal.ChooseAccountType | components/AuthModal.tsx:68-90 | An account-type button records the choice, then opens the signup panel with that choice in place. |
| AuthModal.LoginError | components/AuthModal.tsx:134-141 | A throwing sign-in shows the generic failure. A returned sign-in error shows "Invalid email or password", and no error shows nothing. No other message is possible. |
| AuthModal.LoginClosesIffNoError | components/AuthModal.tsx:128-141 | The login form closes the modal exactly when it shows no error. |
| AuthModal.LoginForm.constructor | components/AuthModal.tsx:117-120 | The login form starts empty, not loading, without an error. |
| AuthModal.LoginForm.SetIsLoading | components/AuthModal.tsx:119 | Sets the loading flag and records the value. |
| AuthModal.LoginForm.HandleSubmit | components/AuthModal.tsx:123-145 | Loading goes on and then off on every path. The error is the generic message if sign-in throws, "Invalid email or password" on a sign-in error, and empty otherwise. The modal closes exactly on success and is left alone otherwise. |
| AuthModal.SignupRequestBody | components/AuthModal.tsx:289-300 | The posted body carries name, email, password and the account type, with the four company fields iff the account type is company. |
| AuthModal.SignupError | components/AuthModal.tsx:277-322 | Mismatched passwords show "Passwords do not match". A throw from the request or from the sign-in shows the generic failure. A rejected registration shows the route's error text, or "Something went wrong" without one. A refused sign-in after signup shows its own message. No other message is possible. |
| AuthModal.SignupClosesIffNoError | components/AuthModal.tsx:277-322 | The signup form closes the modal exactly when it shows no error. |
| AuthModal.SignupForm.constructor | components/AuthModal.tsx:259-270 | The eight form fields start empty, not loading, without an error. |
| AuthModal.SignupForm.HandleInputChange | components/AuthModal.tsx:328-333 | The named field takes the new value and every other field keeps its own. |
| AuthModal.SignupForm.SetIsLoading | components/AuthModal.tsx:269 | Sets the loading flag and records the value. |
| AuthModal.SignupForm.HandleSubmit | components/AuthModal.tsx:272-326 | Loading goes on and then off on every path. With mismatched passwords it shows "Passwords do not match" and sends nothing. Otherwise it sends the shaped body. Its error reports a throw as the generic message, a rejection as the server's error or "Something went wrong", and a sign-in failure after signup with its own message. The modal closes exactly on full success. |
| AuthModal.SignupBodyShapesStoredUser | components/AuthModal.tsx:289-300 | A complete signup body passes the route's checks and is answered 201. The route stores the account type the form chose, and company details exactly for company accounts. |
| AuthModal.RouteErrorReachesForm | components/AuthModal.tsx:317-319 | A 400 from the register route shows its own error message in the form. |
| DashboardLayout.FilterNav | components/DashboardLayout.tsx:69-71 | The filtered table is never longer than the table, and every entry it keeps is visible to the account type. |
| DashboardLayout.FilterNavMembers | components/DashboardLayout.tsx:69-71 | The filtered table holds exactly the table's entries visible to the account type. |
| DashboardLayout.FilterNavDistributes | components/DashboardLayout.tsx:69-71 | Filtering distributes over concatenation, so it keeps the table's order. |
| DashboardLayout.FilterNavKeepsVisible | components/DashboardLayout.tsx:69-71 | A table whose entries are all visible comes through unchanged. |
| DashboardLayout.FilterNavDropsHidden | components/DashboardLayout.tsx:69-71 | A table whose entries are all hidden filters to nothing. |
| DashboardLayout.FilterNavDropsMiddle | components/DashboardLayout.tsx:69-71 | A hidden entry between two runs of visible entries drops out, and the runs stay in order. |
| DashboardLayout.FilterNavDropsOne | components/DashboardLayout.tsx:69-71 | When only one entry is hidden, filtering removes exactly that entry and keeps the rest in order. |
| DashboardLayout.GeneralNavigation | components/DashboardLayout.tsx:35-71 | A general account sees every entry but the company dashboard, in table order. |
| DashboardLayout.OtherAccountNavigation | components/DashboardLayout.tsx:69-71 | Any other account type sees all six entries. |
| DashboardLayout.NavigationVisibility | components/DashboardLayout.tsx:13-56 | Company accounts are offered every entry, and general accounts every entry but the company dashboard. |
| DashboardLayout.HrefsDistinct | components/DashboardLayout.tsx:13-56 | No two navigation entries share a link. |
| DashboardLayout.NavLinks | components/DashboardLayout.tsx:87-95 | One link per entry, in order, highlighted iff the path equals its target exactly. |
| DashboardLayout.AtMostOneActive | components/DashboardLayout.tsx:69-95 | On any path at most one link of the filtered navigation is highlighted. |
| DashboardLayout.HeaderTitle | components/DashboardLayout.tsx:147-154 | The header shows the title of an exactly matching known path and nothing for any other path. |
| DashboardLayout.HeaderTitleByTable | components/DashboardLayout.tsx:13-56 | The paths with a header title are exactly the navigation targets. |
| DashboardLayout.UpperAscii | components/DashboardLayout.tsx:117 | Lower-case ASCII letters are upper-cased and everything else is kept. |
| DashboardLayout.InitialOf | components/DashboardLayout.tsx:117 | The initial is the upper-cased first character of a non-empty name, or the fallback. |
| DashboardLayout.AvatarOf | components/DashboardLayout.tsx:107-119 | The avatar is a picture iff the user has an image. The picture shows that image, described by the user's name or "User". Otherwise it is their initial or "?". |
| DashboardLayout.Layout | components/DashboardLayout.tsx:58-156 | Without a session the layout goes to /login and renders nothing. With one it renders the filtered, highlighted navigation, the avatar, the user's name, the account badge and the header title. |
| DashboardLayout.CompanyLinkOnlyForNonGeneral | components/DashboardLayout.tsx:35-71 | The company dashboard link is offered iff the session's account type is not general. |
| DashboardPages.MountEffect | app/dashboard/page.tsx:19-25 | On mount the page reports the environment, then logs a mount event with the status, whether there is a session, and the time. |
| DashboardPages.DashboardEffect | app/dashboard/page.tsx:29-51 | While loading, the page only logs. Without a session it logs the redirect, opens the login panel, then goes home. With a session it logs access with the user's email and the account type (defaulting to general). |
| DashboardPages.DashboardLeavesOnlyWithoutSession | app/dashboard/page.tsx:29-51 | The page navigates and opens the modal iff the session has loaded and there is none, and it opens the modal before navigating. |
| DashboardPages.DashboardView | app/dashboard/page.tsx:53-200 | Spinner, nothing or the four content blocks, by the gate. |
| DashboardPages.CompanyEffect | app/dashboard/company/page.tsx:279-287 | Nothing while loading or with a session. Without one it opens the login panel, then goes home. |
| DashboardPages.CompanyView | app/dashboard/company/page.tsx:289-331 | Spinner, nothing or the eight sections, by the gate. |
| DashboardPages.CompanySectionsOnceEach | app/dashboard/company/page.tsx:304-331 | Every one of the eight sections is on the page, and none is repeated. |
| DashboardPages.PagesAgreeOnRedirect | app/dashboard/page.tsx:35-45 | The two protected pages go home in exactly the same situations. |
| DashboardWidgets.ScoreBandOf | components/DashboardWidgets.tsx:55-59 | Green iff the score is at least 80, yellow iff 60 to 79, red iff below 60. |
| DashboardWidgets.ScoreBandMonotone | components/DashboardWidgets.tsx:55-59 | A higher score never gets a worse band. |
| DashboardWidgets.BandClassesDistinct | components/DashboardWidgets.tsx:56-58 | The three bands are coloured differently. |
| DashboardWidgets.ChangeMarkersDistinct | components/DashboardWidgets.tsx:18-35 | Both the colour and the arrow tell the three change types apart. |
| DashboardWidgets.AnalyticsCard | components/DashboardWidgets.tsx:10-45 | The change line appears iff a change is given, with the type's colour and arrow, and the type defaults to neutral. The description appears iff one is given. |
| DashboardWidgets.EsgScoreCard | components/DashboardWidgets.tsx:54-97 | The overall score is coloured by its band, followed by exactly three rows: Environmental, Social, Governance. |
| DashboardWidgets.StatusColorsCoverStatuses | components/DashboardWidgets.tsx:109-113 | The badge map has exactly the keys active, completed and pending. |
| DashboardWidgets.StatusColorsDistinct | components/DashboardWidgets.tsx:109-113 | Different statuses get different badges. |
| DashboardWidgets.ProjectCard | components/DashboardWidgets.tsx:108-152 | The badge is the status's colour and label, and the due line appears iff a due date is given. |
| DemoPage.DemoTableMirrorsDashboard | app/dashboard/demo/page.tsx:12-55 | The demo table has the dashboard's entries, icons and visibility flags, in the same order. |
| DemoPage.DemoLayout | app/dashboard/demo/page.tsx:10-115 | The account type defaults to general and filters the demo table. The initial falls back to "D", the name to "Demo User", and the heading names the account kind. |
| DemoPage.MockUserFor | app/dashboard/demo/page.tsx:136-140 | The mock user's name and email follow the chosen account type, which it carries. |
| DemoPage.DemoNavigationByAccount | app/dashboard/demo/page.tsx:57-59 | The general demo drops only the company dashboard; the company demo shows all six entries. |
| DemoPage.DemoProjects | app/dashboard/demo/page.tsx:143-188 | Company accounts get the two company projects, everyone else the three general ones. |
| DemoPage.DemoScores | app/dashboard/demo/page.tsx:305-310 | The four scores are chosen by account type. |
| DemoPage.DemoOverallBands | app/dashboard/demo/page.tsx:305-310 | The company demo's overall score shows green and the general one yellow. |

## Left out

- Console output is not modelled: the `console.*` calls, `runConfigurationCheck` and `logEnvironmentDiagnostics`. The findings that the diagnostics only print are returned as values instead.
- JSX markup, Tailwind classes beyond the colour rules, and presentational components are not modelled.
- The hard-coded analytics and mock figures of the pages are not modelled, apart from the demo's projects and scores.
- Social sign-in and sign-out (`handleSocialSignIn`, `handleGoogleSignup`, `signOut`) are not modelled. They only call the authentication library.
- The in-modal links that switch panels (`openModal('login')`, `openModal('accountType')`) are not modelled as separate members; each is a single `AuthModalProvider.OpenModal`. The same holds for the demo page's account-type toggle, whose two buttons set the `AccountType` parameter the demo functions take.
- `Date.now()`, ISO timestamps, `document.referrer`, `navigator.userAgent` and `typeof window` are inputs, not computed.
- bcrypt, `request.json()`, `NextResponse`, `new URL`, `signIn`, `fetch`, `router.push` and `useSession` are inputs or effect values.
- The user lookup's result is an input of `RegisterRoute.Register`. The route calls `findUnique` with no arguments, so nothing ties it to the submitted email.
- Diagnostics.PathCounts: the counts are kept in a map from path to number, so paths are assumed not to be names of `Object.prototype` properties. In the source the fold starts from a plain `{}`, where `"constructor"` would read an inherited function and `"__proto__"` would not be stored. Every caller logs a `usePathname()` value, which starts with "/".
- Values in logged data and JSON bodies are strings only; booleans appear as their JSON text.
- Request fields are the eight destructured names; other keys of the JSON body are ignored.
- DashboardLayout.UpperAscii: upper-cases ASCII letters only, while JavaScript's `toUpperCase` also maps other scripts.
- The status and score values of the widgets are integers; only threshold comparisons matter.
- React's batching of state updates and re-renders is not modelled. Each handler is one sequential step over given outcomes.
- `middleware.ts` and the NextAuth options file are not part of this model.
