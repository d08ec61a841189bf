# Nutrition tracker client: session guard, weekly analytics and page controllers

This Dafny project models the decision logic of a React client for a nutrition-tracking service:

- **App shell** (`app.dfy`). It restores the signed-in user from browser storage at start-up and clears it on logout. Its route table decides, from the user held in memory, whether each path renders its page or redirects.
- **Weekly score card** (`weekly_score.dfy`). It gives the colour and caption tiers at 80 and 50, and the ring geometry `440 - 440*score/100`.
- **Weekly trend graph** (`weekly_trend_graph.dfy`). The chart scale is `max(2500, highest day)`. There is one bar per day, its height is a percentage of the scale, and a day over 2500 kcal is painted red.
- **Food-log dashboard** (`home.dfy`). It covers the rating badge tiers at 8 and 4, the blank-message guard (JavaScript `trim`), the submit cycle over `message`, `loading` and `error`, the history and statistics fetches, and the Admin Panel link.
- **Admin panel** (`admin_dashboard.dfy`). It covers the status and role toggles, the button captions, and the refusal to let an admin demote themselves. The list is re-fetched only after a mutation succeeds.
- **Password forms** (`forgot_password.dfy`, `reset_password.dfy`). Each maps the request's outcome to the message shown. The reset form checks the two passwords before any request, and schedules the move to the login page only on success.

Numbers are `real`. Every network call is an abstract `Outcome`: `Success(body)` or `Failure(serverMessage)`, where `serverMessage` is the `message` field of the error response when there is one. Each page's state is a datatype with pure transition functions, and the lemmas are stated about those functions. A class with the page's fields implements each handler, and every method ensures `State() == Transition(old(State()), ...)`. Requests a page issues are appended to a `sent` field, so "no request is made" is a statement about that field. Every async handler is split at its `await`. A method does the synchronous part, and an `On...` method takes the outcome and runs the rest, so a second handler call can come between the two. Functions such as `StatusChanged` compose the two halves for the case where the request settles before anything else happens.

Points where the code's behaviour is easy to misread, which the model follows as written:

- The route table reads only the in-memory `user`, never the token. A missing or empty token does not by itself make the session anonymous; it does so only through the restore step, which sets `user` only when both storage entries are present (`App.NoTokenMeansAnonymous`).
- A stored profile that fails to parse makes `JSON.parse` throw, so it is not treated as a signed-out session. The model takes the stored profile as either present and well-formed or absent.
- The toggles are not symmetric flips. Any status other than `Active` becomes `Active`, and any role other than `User` becomes `User`.
- The start-up restore runs in an effect after the first render. See "## Findings".

## Model

| member | source | states |
|---|---|---|
| `App.Route` | src/App.jsx:30-44 | a rendered page is always the page registered at that path; redirects go only to /login or /home; only a signed-in user is sent to /home; an anonymous user is only sent to /login; / never renders |
| `App.LoginAndSignupOnlyWhenSignedOut` | src/App.jsx:31-32 | /login and /signup render iff there is no user, otherwise they redirect to /home |
| `App.PasswordPagesAlwaysRender` | src/App.jsx:33-34 | /forgot-password and /reset-password/:token render for every session |
| `App.HomeOnlyWhenSignedIn` | src/App.jsx:35-38 | /home renders iff a user exists, otherwise redirects to /login |
| `App.AdminOnlyForAdminRole` | src/App.jsx:39-42 | /admin renders iff the user's role is 'Admin'; everyone else is sent to /login, from where a signed-in non-admin ends on the home page |
| `App.RootNeverRenders` | src/App.jsx:43 | / always redirects, to /home iff there is a user, and lands on Home or Login accordingly |
| `App.RouteFollowsAccessTable` | src/App.jsx:30-44 | the route table equals the three-level access table (Anonymous, User, Admin), written independently column by column |
| `App.TwoRedirectsSuffice` | src/App.jsx:31-43 | no redirect loop: from every path, for every session, at most two redirects reach a rendered page |
| `App.LandingIsRendered` | src/App.jsx:31-43 | a page reached by following redirects is one that its own path renders for that session |
| `App.Landing` | src/App.jsx:31-43 | the final page is the directly rendered one when there is no redirect; Home only for a signed-in user, the admin dashboard only for an admin, Login/Signup only when signed out |
| `App.RestoredUser` | src/App.jsx:14-20 | a user is restored iff the token is present and non-empty and a stored profile is present, and it is that stored profile |
| `App.Session.constructor` | src/App.jsx:12 | the app mounts with storage as found and the in-memory user null |
| `App.Session.Restore` | src/App.jsx:14-20 | the user is set to the stored profile only when both entries are present, else left unchanged; storage is untouched; "the user is backed by both storage entries" is preserved |
| `App.Session.Logout` | src/App.jsx:22-26 | both storage keys removed and the user null, whatever the prior state (so a second logout changes nothing) |
| `App.NoTokenMeansAnonymous` | src/App.jsx:14-20 | while every in-memory user is backed by a non-empty token and the stored profile, a missing or empty token means no user, so every path is routed as for an anonymous visitor |
| `App.Session.Decide` | src/App.jsx:30-44 | a route decision depends on the in-memory user only |
| `App.ReloadLanding` | src/App.jsx:12-20 | as written: a reload never lands on the admin dashboard, and lands on Home only with a restored user |
| `App.AdminReloadOfAdminPanelLandsOnHome` | src/App.jsx:14-20 | an admin whom the route table admits to /admin, reloading /admin with a stored session, ends on the home page |
| `App.ReloadLandingRestoredFirst` | src/App.jsx:12-20 | restoring before the first render: a reload lands on whatever the path renders for the restored user, and an admin reloading /admin stays on the admin dashboard |
| `App.ReloadDiffersOnlyOnAdminPanel` | src/App.jsx:12-43 | the as-written and corrected reload differ exactly when an admin reloads /admin |
| `WeeklyScore.ScoreColor` | src/components/WeeklyScore.jsx:7-11 | green iff score >= 80, orange iff 50 <= score < 80, red iff score < 50 |
| `WeeklyScore.ScoreMessage` | src/components/WeeklyScore.jsx:43-45 | the caption tiers use the cut points 80 and 50, each cut point in the higher tier |
| `WeeklyScore.ColorAndMessageAgree` | src/components/WeeklyScore.jsx:43-45 | colour and caption always name the same tier |
| `WeeklyScore.DashOffset` | src/components/WeeklyScore.jsx:13 | offset 440 at score 0 and 0 at score 100; within [0, 440] for scores in [0, 100]; outside that range for scores outside it |
| `WeeklyScore.DashOffsetStrictlyDecreasing` | src/components/WeeklyScore.jsx:13 | a higher score gives a strictly smaller offset |
| `WeeklyScore.Render` | src/components/WeeklyScore.jsx:31-46 | the number shown is the score itself, not clamped; the stroke and the caption agree on the tier |
| `WeeklyTrendGraph.MaxCalories` | src/components/WeeklyTrendGraph.jsx:7 | the scale is at least 2500 and at least every day's calories, and it is either 2500 or some day's calories |
| `WeeklyTrendGraph.ScaleIsCeilingUnlessExceeded` | src/components/WeeklyTrendGraph.jsx:7 | the scale is exactly 2500 iff no day exceeds 2500, the empty week included |
| `WeeklyTrendGraph.ScaleReachedWhenExceeded` | src/components/WeeklyTrendGraph.jsx:7 | when some day exceeds 2500, the scale equals some day's calories |
| `WeeklyTrendGraph.HeightPercent` | src/components/WeeklyTrendGraph.jsx:18 | calories between 0 and the scale give a height in [0, 100]; exactly the scale gives 100; below the scale gives less than 100 |
| `WeeklyTrendGraph.Bars` | src/components/WeeklyTrendGraph.jsx:13-23 | one bar per sample in input order, with that sample's day label and calories, its height against the week's scale, red iff calories > 2500 and green iff <= 2500 |
| `WeeklyTrendGraph.BarHeightWithinChart` | src/components/WeeklyTrendGraph.jsx:18 | a day with non-negative calories has a bar between 0% and 100% |
| `WeeklyTrendGraph.FullBarAtScale` | src/components/WeeklyTrendGraph.jsx:18 | the day whose calories set the scale gets exactly 100% |
| `WeeklyTrendGraph.NoBarOverflows` | src/components/WeeklyTrendGraph.jsx:18 | no bar exceeds 100% |
| `WeeklyTrendGraph.EmptyWeekHasNoBars` | src/components/WeeklyTrendGraph.jsx:7-13 | empty data gives no bars and the scale 2500, so there is no division by zero |
| `WeeklyTrendGraph.MondayTuesdayExample` | src/components/WeeklyTrendGraph.jsx:7-23 | 3000 kcal Monday and 1000 kcal Tuesday: scale 3000, a red 100% bar and a green one-third bar |
| `Home.RatingLabel` | src/pages/Home.jsx:63-67 | 'Excellent' iff rating >= 8, 'Moderate' iff 4 <= rating < 8, 'Unhealthy' iff rating < 4 |
| `Home.RatingColor` | src/pages/Home.jsx:57-61 | green iff rating >= 8, orange iff 4 <= rating < 8, red iff rating < 4 |
| `Home.RatingColorMatchesLabel` | src/pages/Home.jsx:57-67 | Excellent is green, Moderate orange, Unhealthy red |
| `Home.AdminLinkIffAdminRouteRenders` | src/pages/Home.jsx:75 | the Admin Panel link is shown iff the route table would render the admin dashboard for this user |
| `Home.TrimStart` | src/pages/Home.jsx:40 | the result is the suffix left after a prefix made only of white space, and it does not start with white space |
| `Home.TrimEnd` | src/pages/Home.jsx:40 | the result is the prefix left before a suffix made only of white space, and it does not end with white space |
| `Home.BlankIffAllWhitespace` | src/pages/Home.jsx:40 | `!message.trim()` holds iff every character of the message is JavaScript white space |
| `Home.BlankSubmitDoesNothing` | src/pages/Home.jsx:40 | a blank or white-space-only message issues no request and leaves loading, error and everything else unchanged |
| `Home.SubmitSendsMessage` | src/pages/Home.jsx:40-46 | a message with a visible character is sent untrimmed; loading becomes true and the error is cleared |
| `Home.SubmitCycle` | src/pages/Home.jsx:38-55 | after a submission loading is false; error empty iff the request succeeded; text cleared iff it succeeded; success re-fetches history and statistics; failure keeps the text and shows the server message or 'Failed to log food' |
| `Home.HistoryFallsBackToEmpty` | src/pages/Home.jsx:20-27 | a response without data gives an empty list; a response with data gives that list; a failed fetch changes nothing |
| `Home.StatsReplacedOnSuccess` | src/pages/Home.jsx:29-36 | a successful statistics fetch replaces the statistics and nothing else; a failed one changes nothing |
| `Home.Dashboard.constructor` | src/pages/Home.jsx:9-18 | mounting starts with empty state and issues the history (limit 10) and statistics fetches |
| `Home.Dashboard.Edit` | src/pages/Home.jsx:89 | typing replaces the message text only |
| `Home.Dashboard.HandleSubmit` | src/pages/Home.jsx:38-46 | the state becomes `Home.SubmitStarted` of the old state; the request is sent iff the message is not blank |
| `Home.Dashboard.OnLogFoodSettled` | src/pages/Home.jsx:45-54 | the state becomes `Home.SubmitSettled` of the old state and the outcome |
| `Home.Dashboard.OnHistory` | src/pages/Home.jsx:20-27 | the state becomes `Home.HistoryReceived` of the old state and the outcome |
| `Home.Dashboard.OnWeeklyStats` | src/pages/Home.jsx:29-36 | the state becomes `Home.StatsReceived` of the old state and the outcome: success replaces the weekly statistics; failure changes nothing |
| `AdminDashboard.ToggledStatus` | src/pages/AdminDashboard.jsx:27 | always 'Active' or 'Inactive'; 'Inactive' iff the current status is 'Active' |
| `AdminDashboard.ToggledRole` | src/pages/AdminDashboard.jsx:37 | always 'Admin' or 'User'; 'Admin' iff the current role is 'User' |
| `AdminDashboard.TogglesAreInvolutions` | src/pages/AdminDashboard.jsx:26-37 | on the server's two values each toggle changes the value and undoes itself |
| `AdminDashboard.StatusButtonLabel` | src/pages/AdminDashboard.jsx:106 | 'Deactivate' iff the status is 'Active', which is exactly when the button's change deactivates |
| `AdminDashboard.RoleButtonLabel` | src/pages/AdminDashboard.jsx:112 | 'Make Admin' iff the role is 'User', which is exactly when the button's change promotes |
| `AdminDashboard.SelfDemotionIff` | src/pages/AdminDashboard.jsx:37-41 | the refused case is exactly the acting admin's own row with a role other than 'User' |
| `AdminDashboard.FetchUsersSettles` | src/pages/AdminDashboard.jsx:15-24 | loading ends in every case; success sets the rows to the response data or none; failure sets 'Failed to fetch users' and keeps the rows |
| `AdminDashboard.StatusChangeRefetchesOnlyOnSuccess` | src/pages/AdminDashboard.jsx:26-34 | a status change that settles before anything else appends exactly one update request with the toggled status, then exactly one list request iff it succeeded, and nothing else; rows, loading and error untouched |
| `AdminDashboard.InterleavedStatusChanges` | src/pages/AdminDashboard.jsx:26-34 | two clicks before either request settles append exactly both updates in click order, then one list request per success and nothing else; rows, loading and error untouched |
| `AdminDashboard.SelfDemotionRefused` | src/pages/AdminDashboard.jsx:36-41 | demoting oneself makes no request and changes nothing |
| `AdminDashboard.RoleChangeIssuedUnlessSelfDemotion` | src/pages/AdminDashboard.jsx:36-49 | a request is made iff it is not a self-demotion (so demoting another admin or promoting anyone, oneself included, is sent); then exactly one role request is appended, followed by exactly one list request iff it succeeded, and nothing else |
| `AdminDashboard.AdminPanel.constructor` | src/pages/AdminDashboard.jsx:7-13 | mounting starts loading with no rows and issues the list fetch (limit 50) |
| `AdminDashboard.AdminPanel.OnUsersFetched` | src/pages/AdminDashboard.jsx:15-24 | the state becomes `AdminDashboard.UsersFetched` of the old state and the outcome |
| `AdminDashboard.AdminPanel.HandleStatusChange` | src/pages/AdminDashboard.jsx:26-29 | the state becomes `AdminDashboard.StatusChangeStarted`, up to the await: only the update request with the toggled status is appended |
| `AdminDashboard.AdminPanel.HandleRoleChange` | src/pages/AdminDashboard.jsx:36-44 | the state becomes `AdminDashboard.RoleChangeStarted`, up to the await: the role request is appended, and reported as sent, iff it is not a self-demotion by the acting admin |
| `AdminDashboard.AdminPanel.OnMutationSettled` | src/pages/AdminDashboard.jsx:29-33 | the state becomes `AdminDashboard.MutationSettled`, after either mutation settles: the list fetch is appended iff it succeeded; nothing else changes |
| `ForgotPassword.NoticeFor` | src/pages/ForgotPassword.jsx:17-36 | an error iff the request failed; never empty; success with `success` gives the fixed link-sent text; success without it gives `data` or 'Email sent successfully'; failure gives the server message or the generic error |
| `ForgotPassword.WhileSending` | src/pages/ForgotPassword.jsx:12-18 | before the request loading is true, the message is cleared and exactly one request carries the email |
| `ForgotPassword.SubmitCycle` | src/pages/ForgotPassword.jsx:12-40 | after a submission loading is false, a message is shown, and it is an error iff the request failed |
| `ForgotPassword.ForgotPasswordForm.constructor` | src/pages/ForgotPassword.jsx:7-10 | empty email and message, not an error, not loading |
| `ForgotPassword.ForgotPasswordForm.Edit` | src/pages/ForgotPassword.jsx:53-57 | typing replaces the email only |
| `ForgotPassword.ForgotPasswordForm.HandleSubmit` | src/pages/ForgotPassword.jsx:12-18 | the state becomes `ForgotPassword.SubmitStarted` of the old state |
| `ForgotPassword.ForgotPasswordForm.OnSettled` | src/pages/ForgotPassword.jsx:17-39 | the state becomes `ForgotPassword.SubmitSettled` of the old state and the outcome |
| `ResetPassword.MismatchMakesNoRequest` | src/pages/ResetPassword.jsx:19-22 | different passwords give 'Passwords do not match', no message, no request and no redirect |
| `ResetPassword.MatchSendsRequest` | src/pages/ResetPassword.jsx:14-25 | matching passwords clear both notices and send the password for the path's token |
| `ResetPassword.SubmitCycle` | src/pages/ResetPassword.jsx:24-32 | the error is empty iff the request succeeded; success shows the response text and schedules /login; failure shows the server message or the generic error, no message, and schedules nothing |
| `ResetPassword.RedirectOnlyOnSuccess` | src/pages/ResetPassword.jsx:27-29 | a navigation is scheduled iff the request succeeded, and never before the request settles |
| `ResetPassword.ResetPasswordForm.constructor` | src/pages/ResetPassword.jsx:7-11 | the form starts empty for the token from the path |
| `ResetPassword.ResetPasswordForm.Edit` | src/pages/ResetPassword.jsx:44-61 | typing replaces the two password fields only |
| `ResetPassword.ResetPasswordForm.HandleSubmit` | src/pages/ResetPassword.jsx:14-25 | the state becomes `ResetPassword.SubmitStarted` of the old state; the request is sent iff the passwords match |
| `ResetPassword.ResetPasswordForm.OnSettled` | src/pages/ResetPassword.jsx:24-32 | the state becomes `ResetPassword.SubmitSettled` of the old state and the outcome |

## Left out

- src/api.js (axios instance, base URL, bearer header) is not part of this model. Requests are recorded as values, and their results are outcome parameters.
- The login and signup pages are not part of this model. So saving a new session into storage is not modelled, only restoring it and clearing it.
- A stored profile that does not parse. `JSON.parse` throws there, and that path is not modelled.
- Rendering: markup, CSS classes, SVG sizes, `toLocaleDateString`, and number-to-text formatting. The score card shows the score as a number, and a bar's hover text is its calorie value.
- Asynchrony. The model does not capture the order in which concurrent responses arrive, discarding results after unmount, or the disabled buttons. The model allows a submit while `loading` is on, which the page's disabled Log Food and Send buttons prevent. Each response is applied by its own transition whenever the caller chooses.
- ResetPassword.ResetPasswordForm.HandleSubmit: the model covers the handler only, not the browser's form validation. Both password inputs are `required` with `minLength="6"`, so passwords shorter than six characters never reach the handler, yet `ResetPassword.MatchSendsRequest` states that matching short passwords are sent.
- ForgotPassword.ForgotPasswordForm.HandleSubmit: the model covers the handler only. The browser blocks an empty or malformed email (`type="email" required`) and a submit while the disabled Send button shows loading, yet `ForgotPassword.SubmitStarted` sends any email.
- Home.Dashboard.HandleSubmit: the meal text box is `required`, so the browser stops an empty message before the handler runs. A message of white space only gets through and is caught by the handler's own guard, which the model covers.
- URLs the router does not match, which render nothing, are outside the closed `App.Path` type. `App.ResetPasswordPath` also accepts an empty token, which `/reset-password/:resetToken` never matches.
- The 3000 ms delay before the reset page navigates. It is modelled as a navigation appended to `scheduled`.
- `alert` and `console` calls. This includes the admin panel's warning on self-demotion and its failure alerts, which change no state.
- IEEE floating point (NaN, infinities, rounding). Scores, ratings and calories are `real`.
- JavaScript truthiness of response fields. `success` is a `bool`, and `data` is present or absent. A non-array truthy `data` for the history or user list is not modelled.
- ResetPassword.SubmitSettled: a success body without `data` leaves the message empty, where the code sets it to `undefined`. Both show nothing.
- The admin panel never clears `error` after a failed fetch, even when a later fetch succeeds. This is modelled as written.

## Findings

| source | as written | input that shows it | evidently intended | confidence | as-written member | corrected member |
|---|---|---|---|---|---|---|
| src/App.jsx:12-20 | the user is restored by an effect that runs after the first render, and that render's `<Navigate>` already sees `user` null | an admin with a stored token and profile reloads /admin: the first render redirects to /login, then /login redirects the restored admin to /home | a reload keeps a signed-in user on the screen they are allowed to see, so the admin stays on the admin panel | medium, not executed | `App.ReloadLanding` (exhibited by `App.AdminReloadOfAdminPanelLandsOnHome`) | `App.ReloadLandingRestoredFirst` (with `App.ReloadDiffersOnlyOnAdminPanel`) |
