# visvas_frontend: a verified model of the site's client-side logic

The front end of a construction company's site is a React application with two halves. The
public pages carry a booking form in two places, the footer and a modal over every page, plus
a frequently-asked-questions accordion, a pair of package cards with expandable feature
sections, a self-advancing image gallery and a six-step "how it works" stepper. The admin half
has a registration form with a password policy, a welcome page for non-admin users, and the
admin dashboard. The dashboard has a filterable, paginated bookings table whose rows' status
can be changed, and a user-management tab that creates, edits and deletes accounts.

This project models that logic in Dafny, one module per component:

- The browser is a `Session.BrowserState`: `localStorage` as a map from keys to strings, plus
  the last navigation target.
- Each component with state is a class whose fields are the component's state slots, and its
  handlers are methods.
- A backend call is not made. The handler takes the call's outcome as a parameter:
  - `Wrappers.Outcome` for the dashboard: ok with payload, 401, other failure, or thrown;
  - `Wrappers.Reply` for the public and registration forms: ok body, error body, or network error.
- A handler that sends something either records it in the dashboard's `sent` log or returns it.
- Some requests are started without being awaited, and the model handles them in one of two ways.
  - After a status change, on mount, and on switching to the user-management tab, the handler
    returns a flag saying the fetch has started. The caller then runs the matching fetch method
    as a later event.
  - Apply filters, clear filters, and the previous/next page buttons run the bookings fetch to
    completion inside the handler. The handler takes that fetch's outcome as a parameter.
- The pure parts live in `DashboardRows`, `LeadForm` and `Accordion`, with lemmas about them:
  the row transformations, the query, the footer range, the digit filter, the body mapping
  and the toggle rule.

Facts about the code that the model keeps:

- A booking's status changes in the table only after the PATCH answered ok.
- The minimum password length is 7.
- The password `abc` yields four errors (length, uppercase, digit, special): it contains a
  lowercase letter.
- Empty filter fields are still sent as query keys.
- `hasPrev`/`hasNext` are taken from the server's pagination object and never recomputed.

## Model

Several contracts below are stated in terms of definitions that have no contract of their own:

- `DashboardRows.QueryParams`: the `URLSearchParams` object of src/components/admin/adminPage/AdminDashboard.jsx:115-119.
- `AdminDashboard.OnBookings`: the bookings response branches of src/components/admin/adminPage/AdminDashboard.jsx:127-140.
- `AdminDashboard.OnUsers`: the users response branches of src/components/admin/adminPage/AdminDashboard.jsx:152-164.
- `AdminDashboard.StorageAfter` and `AdminDashboard.RouteAfter`: the 401 branches of src/components/admin/adminPage/AdminDashboard.jsx:131-135 and :155-159.
- `LeadForm.MissingRequired`: the validation test of src/components/footer/Footer.jsx:49 and src/components/contactUs/BookMeetingModal.jsx:44.
- `AdminRegister.PasswordErrors`, `AdminRegister.Holds` and `AdminRegister.ContainsLower` through `AdminRegister.ContainsSpecial`: the length check and the four regular-expression tests of src/components/admin/adminAuth/AdminRegister.jsx:45-58.
- `Session.HasSession`: the negation of the test `!token || !user` of src/components/Welcome.jsx:12 and src/components/admin/adminPage/AdminDashboard.jsx:64.
- `HowItWorks.CircleFilled`: the test `index <= activeStep` of src/components/landingPage/howItWorks.jsx:65-71.

| member | source | states |
|---|---|---|
| Session.GetItem | src/components/Welcome.jsx:9-10 | a lookup yields a value exactly when the key is stored, and then the stored value |
| Session.ClearSession | src/components/Welcome.jsx:24-26 | both session keys are gone, no session remains, and every other key keeps its value |
| Session.StoreSession | src/components/admin/adminAuth/AdminRegister.jsx:106-107 | both keys read back as written, a session exists when both are non-empty, and other keys are untouched |
| Session.ClearUndoesStore | src/components/admin/adminAuth/AdminRegister.jsx:106-107 | clearing after storing a session gives the same storage as clearing before it |
| Session.BrowserState.NavigateTo | src/components/Welcome.jsx:27 | the route becomes the target and storage is unchanged |
| Session.BrowserState.EndSession | src/components/admin/adminPage/AdminDashboard.jsx:133-135 | both keys are removed, then the route becomes the target |
| App.AppState.constructor | src/App.jsx:18-20 | modal closed, no message, toast hidden |
| App.AppState.OpenModal | src/App.jsx:22 | the modal flag is set whatever it was, so opening is idempotent; the toast is untouched |
| App.AppState.CloseModal | src/App.jsx:23 | the modal flag is cleared whatever it was; the toast is untouched |
| App.AppState.HandleBookingSuccess | src/App.jsx:25-28 | the message is the argument and the toast is shown; the modal flag is kept |
| App.AppState.CloseSuccessToast | src/App.jsx:30-33 | the toast is hidden and its message emptied |
| App.AppState.HandleAdminLogin | src/App.jsx:35-38 | user and token are ignored: the route is always `/admin` and storage is unchanged |
| App.AppState.HandleAdminRegister | src/App.jsx:40-43 | the same redirect to `/admin` whatever user and token are passed |
| Welcome.WelcomeGuard | src/components/Welcome.jsx:8-22 | to login iff token or user is missing; to `/admin` iff a session with role admin; stays iff a session with another role |
| Welcome.Guard | src/components/Welcome.jsx:8-22 | the mount effect navigates as the guard decides and never touches storage |
| Welcome.Logout | src/components/Welcome.jsx:24-28 | both keys are removed and the route is the login page |
| Welcome.LogoutThenGuard | src/components/Welcome.jsx:12-15 | after a logout the welcome guard always sends the user to log in |
| DashboardRows.WithFilter | src/components/admin/adminPage/AdminDashboard.jsx:167-173 | the named filter takes the value and the other three keep theirs |
| DashboardRows.QueryParamsKeys | src/components/admin/adminPage/AdminDashboard.jsx:112-119 | six distinct keys: page, limit 10, and every filter key with its value, empty ones included |
| DashboardRows.QueryDeterminesFilters | src/components/admin/adminPage/AdminDashboard.jsx:112-119 | two filter states give the same query for a page iff they are equal |
| DashboardRows.SetStatus | src/components/admin/adminPage/AdminDashboard.jsx:211-215 | same length; rows with the id get the new status and nothing else changes; other rows are unchanged |
| DashboardRows.SetStatusKeepsIds | src/components/admin/adminPage/AdminDashboard.jsx:211-215 | the ids and their order are kept |
| DashboardRows.SetStatusIdempotent | src/components/admin/adminPage/AdminDashboard.jsx:211-215 | applying the same update twice equals applying it once |
| DashboardRows.SetStatusAbsentId | src/components/admin/adminPage/AdminDashboard.jsx:211-215 | an id not on the page leaves the rows unchanged |
| DashboardRows.ReplaceById | src/components/admin/adminPage/AdminDashboard.jsx:741-743 | same length; each entry with the id becomes the returned user and the others stay in place |
| DashboardRows.ReplaceByIdIdempotent | src/components/admin/adminPage/AdminDashboard.jsx:741-743 | with a returned user under the same id, a second replacement changes nothing |
| DashboardRows.RemoveById | src/components/admin/adminPage/AdminDashboard.jsx:784 | survivors are exactly the entries without the id, each kept as often as before; entries with the id are gone |
| DashboardRows.RemoveByIdAppend | src/components/admin/adminPage/AdminDashboard.jsx:784 | removal commutes with concatenation, so survivors keep their relative order |
| DashboardRows.RemoveByIdIdempotent | src/components/admin/adminPage/AdminDashboard.jsx:784 | removing the same id twice equals removing it once |
| DashboardRows.RemoveByIdAbsent | src/components/admin/adminPage/AdminDashboard.jsx:784 | a list without the id is returned unchanged |
| DashboardRows.FooterRange | src/components/admin/adminPage/AdminDashboard.jsx:595-598 | shown iff more than one page; first is (page-1)*10+1; last is the smaller of page*10 and the total |
| DashboardRows.FooterRangeWithinTotal | src/components/admin/adminPage/AdminDashboard.jsx:595-598 | for a consistent server pagination the range is non-empty, within 1..total, at most ten rows, and full-width before the last page |
| AdminDashboard.DashboardGuard | src/components/admin/adminPage/AdminDashboard.jsx:60-76 | to login iff token or user is missing; to the welcome page iff the role is not admin; loads iff an admin session |
| AdminDashboard.GuardsAgree | src/components/admin/adminPage/AdminDashboard.jsx:60-76 | for a session exactly one of dashboard and welcome page stays and the other redirects to it; without one both go to login |
| AdminDashboard.WithUserField | src/components/admin/adminPage/AdminDashboard.jsx:679-685 | the named form field takes the value and the other two keep theirs |
| AdminDashboard.Dashboard.constructor | src/components/admin/adminPage/AdminDashboard.jsx:9-57 | the initial values of all state slots, loading on, nothing sent |
| AdminDashboard.Dashboard.Mount | src/components/admin/adminPage/AdminDashboard.jsx:60-76 | redirects as the guard decides, and starts the data load iff the guard lets the admin in |
| AdminDashboard.Dashboard.FetchBookings | src/components/admin/adminPage/AdminDashboard.jsx:112-141 | sends the query for the page and the override or current filters; ok replaces rows and pagination; 401 ends the session and goes to login; a throw sets the error; nothing else changes |
| AdminDashboard.Dashboard.FetchDashboardData | src/components/admin/adminPage/AdminDashboard.jsx:85-110 | stats then page 1 of bookings; a thrown stats call sets the error and skips bookings; loading ends on every path |
| AdminDashboard.Dashboard.FetchUsers | src/components/admin/adminPage/AdminDashboard.jsx:143-165 | ok replaces the users; 401 ends the session; a throw sets the error |
| AdminDashboard.Dashboard.SelectTab | src/components/admin/adminPage/AdminDashboard.jsx:79-83 | only the tab changes; a users fetch starts iff the tab becomes user management |
| AdminDashboard.Dashboard.HandleFilterChange | src/components/admin/adminPage/AdminDashboard.jsx:167-173 | only the named filter changes; no other state slot changes |
| AdminDashboard.Dashboard.ApplyFilters | src/components/admin/adminPage/AdminDashboard.jsx:175-178 | the current page becomes 1 and page 1 is fetched with the current filters |
| AdminDashboard.Dashboard.ClearFilters | src/components/admin/adminPage/AdminDashboard.jsx:180-190 | filters become empty, the page becomes 1, and the request carries the cleared filters |
| AdminDashboard.Dashboard.GoToPreviousPage | src/components/admin/adminPage/AdminDashboard.jsx:601-607 | usable only when the server's `hasPrev` is set; fetches the previous page with the current filters |
| AdminDashboard.Dashboard.GoToNextPage | src/components/admin/adminPage/AdminDashboard.jsx:611-617 | usable only when the server's `hasNext` is set; fetches the next page |
| AdminDashboard.Dashboard.HandleStatusUpdate | src/components/admin/adminPage/AdminDashboard.jsx:196-241 | on ok exactly the rows with the id get the status, a success toast shows and a refresh starts; otherwise the rows are untouched and an error toast shows |
| AdminDashboard.Dashboard.HandleLogout | src/components/admin/adminPage/AdminDashboard.jsx:288-292 | both keys removed, route `/welcome`, whose guard then sends every user to log in |
| AdminDashboard.Dashboard.CloseToast | src/components/admin/adminPage/AdminDashboard.jsx:660 | only the toast's visibility is cleared; its message and kind are kept |
| AdminDashboard.Dashboard.CloseConfirmation | src/components/admin/adminPage/AdminDashboard.jsx:666 | only the confirmation's open flag is cleared |
| AdminDashboard.Dashboard.HandleUserFormChange | src/components/admin/adminPage/AdminDashboard.jsx:679-685 | only the named user-form field changes |
| AdminDashboard.Dashboard.HandleCreateUser | src/components/admin/adminPage/AdminDashboard.jsx:687-724 | on ok the returned user is appended after the unchanged earlier entries and the form resets; otherwise users and form are kept and an error toast shows |
| AdminDashboard.Dashboard.HandleUpdateUser | src/components/admin/adminPage/AdminDashboard.jsx:726-766 | on ok entries with the edited id are replaced, the edit ends and the form resets; otherwise only an error toast |
| AdminDashboard.Dashboard.SubmitUserForm | src/components/admin/adminPage/AdminDashboard.jsx:836 | a PUT for the edited user while editing, a POST of the form otherwise; a failure keeps users, form and edit |
| AdminDashboard.Dashboard.HandleDeleteUser | src/components/admin/adminPage/AdminDashboard.jsx:768-809 | only opens the danger confirmation holding the user id; nothing is sent |
| AdminDashboard.Dashboard.ConfirmDelete | src/components/admin/adminPage/AdminDashboard.jsx:773-806 | on ok exactly the entries with the id are removed; on every path the confirmation is reset to closed |
| AdminDashboard.Dashboard.StartEdit | src/components/admin/adminPage/AdminDashboard.jsx:811-818 | the row becomes the edited user and the form takes its email and role with a blank password |
| AdminDashboard.Dashboard.CancelEdit | src/components/admin/adminPage/AdminDashboard.jsx:820-823 | the edit ends and the form resets to email '', password '', role 'user' |
| AdminRegister.Broken | src/components/admin/adminAuth/AdminRegister.jsx:43-61 | a rule is listed iff it is among the checked rules and the password breaks it |
| AdminRegister.BrokenAppend | src/components/admin/adminAuth/AdminRegister.jsx:43-61 | the broken rules of two rule lists concatenate in order |
| AdminRegister.BrokenUnfold | src/components/admin/adminAuth/AdminRegister.jsx:43-61 | the five rules are checked one after another in the order length, lower, upper, digit, special |
| AdminRegister.ValidatePassword | src/components/admin/adminAuth/AdminRegister.jsx:43-61 | the pushed error list is the messages of the broken rules in check order |
| AdminRegister.MessageInjective | src/components/admin/adminAuth/AdminRegister.jsx:46-58 | distinct rules have distinct messages |
| AdminRegister.PasswordErrorsIff | src/components/admin/adminAuth/AdminRegister.jsx:43-61 | each rule's message is present iff that rule is broken; the list is empty iff all five rules hold |
| AdminRegister.StrongPasswordExample | src/components/admin/adminAuth/AdminRegister.jsx:43-61 | 'Abcde1!' yields no errors |
| AdminRegister.ShortLowercaseBroken | src/components/admin/adminAuth/AdminRegister.jsx:45-59 | a short lowercase-only password breaks length, upper, digit and special, in that order |
| AdminRegister.ShortLowercaseErrors | src/components/admin/adminAuth/AdminRegister.jsx:43-61 | such a password gets exactly those four messages in order |
| AdminRegister.WeakPasswordExample | src/components/admin/adminAuth/AdminRegister.jsx:43-61 | 'abc' yields the length, uppercase, number and special-character errors |
| AdminRegister.SubmitCheck | src/components/admin/adminAuth/AdminRegister.jsx:66-82 | an empty field gives 'Please fill in all fields'; else the first password error; else a mismatch gives 'Passwords do not match' |
| AdminRegister.SubmitCheckPasses | src/components/admin/adminAuth/AdminRegister.jsx:66-82 | the request goes out iff all fields are filled, all five rules hold and the passwords match |
| AdminRegister.SubmitReportsFirstRule | src/components/admin/adminAuth/AdminRegister.jsx:71-76 | a short password is reported by the length message alone, before any mismatch |
| AdminRegister.RejectionMessage | src/components/admin/adminAuth/AdminRegister.jsx:115-120 | first detail's msg, else `error`, when details exist; otherwise `error` or 'Registration failed' |
| AdminRegister.RejectionMessageEmptyIff | src/components/admin/adminAuth/AdminRegister.jsx:115-120 | the error line is empty iff the first detail has no msg and `error` is absent; with no details it is never empty |
| AdminRegister.RejectionMessageCanBeEmpty | src/components/admin/adminAuth/AdminRegister.jsx:116-117 | a detail without msg and no `error` leaves the error line empty |
| AdminRegister.RegisterPage.constructor | src/components/admin/adminAuth/AdminRegister.jsx:7-18 | empty form and messages, not submitting |
| AdminRegister.RegisterPage.HandleInputChange | src/components/admin/adminAuth/AdminRegister.jsx:25-33 | only the named field changes, and error and success are cleared |
| AdminRegister.RegisterPage.HandleSubmit | src/components/admin/adminAuth/AdminRegister.jsx:63-86 | a request is returned iff the checks pass, and then the form is in flight; otherwise the first failing check's message is shown |
| AdminRegister.RegisterPage.ReceiveResponse | src/components/admin/adminAuth/AdminRegister.jsx:88-127 | ok stores both keys and goes to `/welcome` when asked, otherwise to `/admin`; a rejection or network error sets the error and leaves storage; never in flight after |
| LeadForm.ApplyChange | src/components/footer/Footer.jsx:23-31 | the named field takes the value (`checked` for the terms box) and every other field keeps its value |
| LeadForm.ApplyChangeLastWins | src/components/footer/Footer.jsx:23-31 | of two changes to one field the later wins |
| LeadForm.DigitsOnly | src/components/footer/Footer.jsx:36 | the result is all digits, no longer than the input, and keeps each digit as often as the input has it and nothing else |
| LeadForm.DigitsOnlyAppend | src/components/footer/Footer.jsx:36 | the filter distributes over concatenation, so the digits keep their order |
| LeadForm.DigitsOnlyKeepsDigits | src/components/footer/Footer.jsx:36 | an all-digit input is returned unchanged |
| LeadForm.DigitsOnlyIdempotent | src/components/footer/Footer.jsx:36 | filtering twice equals filtering once |
| LeadForm.RequestBody | src/components/footer/Footer.jsx:63-69 | fullName to name, constructionTime to constructionTimeline, ownPlot to ownPlotOfLand; email and mobileNumber passed through |
| LeadForm.RequestBodyOmitsOnlyTerms | src/components/footer/Footer.jsx:63-69 | two forms give the same body iff they differ at most in agreeToTerms |
| LeadForm.SentBodyComplete | src/components/footer/Footer.jsx:48-52 | a body that passed the gate has no empty field |
| LeadForm.FailureMessage | src/components/footer/Footer.jsx:87-93 | the server's `error`, else the booking-failed text; the network text after a throw; never empty |
| Footer.FooterForm.constructor | src/components/footer/Footer.jsx:10-21 | empty form, no error, not submitting |
| Footer.FooterForm.HandleInputChange | src/components/footer/Footer.jsx:23-31 | the form changes by the event alone and the error is cleared |
| Footer.FooterForm.HandleMobileNumberChange | src/components/footer/Footer.jsx:33-43 | the number becomes the typed text's digits, so it is all digits afterwards; the error is cleared |
| Footer.FooterForm.HandleSubmit | src/components/footer/Footer.jsx:45-55 | a request is returned iff no required field is missing, with the renamed body, and the form is then in flight; otherwise the required-fields error |
| Footer.FooterForm.ReceiveResponse | src/components/footer/Footer.jsx:72-96 | ok hands the message to the app toast and empties the form; otherwise the form is kept and the error set; never in flight after |
| BookMeetingModal.MeetingModal.constructor | src/components/contactUs/BookMeetingModal.jsx:5-16 | empty form, no error, not submitting |
| BookMeetingModal.MeetingModal.Render | src/components/contactUs/BookMeetingModal.jsx:103 | renders nothing iff the modal is closed |
| BookMeetingModal.MeetingModal.HandleInputChange | src/components/contactUs/BookMeetingModal.jsx:18-26 | the form changes by the event alone and the error is cleared |
| BookMeetingModal.MeetingModal.HandleMobileNumberChange | src/components/contactUs/BookMeetingModal.jsx:28-38 | the number becomes the typed text's digits |
| BookMeetingModal.MeetingModal.HandleSubmit | src/components/contactUs/BookMeetingModal.jsx:40-50 | the same gate and body as the footer form |
| BookMeetingModal.MeetingModal.ReceiveResponse | src/components/contactUs/BookMeetingModal.jsx:67-92 | ok shows the app toast, closes the modal (so it renders nothing) and empties the form; otherwise the form is kept and the error set |
| Accordion.Toggle | src/components/faqs/faqQuestions.jsx:6-8 | the open index closes; any other index opens alone |
| Accordion.ToggleOpens | src/components/faqs/faqQuestions.jsx:6-8 | after a toggle an index is open iff it is the toggled one and was closed |
| Accordion.ToggleTwice | src/components/faqs/faqQuestions.jsx:6-8 | toggling one index twice restores it only if it was open, and closes anything else |
| FaqQuestions.FaqList.constructor | src/components/faqs/faqQuestions.jsx:4 | nothing is open |
| FaqQuestions.FaqList.Indicator | src/components/faqs/faqQuestions.jsx:129 | a minus sign iff the answer is expanded, a plus otherwise |
| FaqQuestions.FaqList.ToggleFaq | src/components/faqs/faqQuestions.jsx:6-8 | afterwards exactly the clicked question is expanded if it was closed, and none if it was open |
| FaqQuestions.AtMostOneExpanded | src/components/faqs/faqQuestions.jsx:133-135 | no two answers are expanded together |
| Packages.Indicator | src/components/landingPage/packages.jsx:178-181 | '-' iff the section is the card's open one, '+' otherwise |
| Packages.PackageCards.constructor | src/components/landingPage/packages.jsx:5-6 | both cards start closed |
| Packages.PackageCards.ToggleSection | src/components/landingPage/packages.jsx:158-165 | 'standard' toggles only the standard slot; any other name toggles only the custom slot |
| Gallery.Next | src/components/landingPage/gallerySection.jsx:47-49 | the index stays below 19; it is one more, except that the last wraps to 0 |
| Gallery.Prev | src/components/landingPage/gallerySection.jsx:43-45 | the index stays below 19; it is one less, except that 0 wraps to 18 |
| Gallery.NextPrevInverse | src/components/landingPage/gallerySection.jsx:43-49 | next then previous, and previous then next, restore the index |
| Gallery.Carousel.constructor | src/components/landingPage/gallerySection.jsx:27-28 | first image, not hovered |
| Gallery.Carousel.Offset | src/components/landingPage/gallerySection.jsx:69 | a whole number of image widths, the current index, within 0..1800 percent |
| Gallery.Carousel.GoToNext | src/components/landingPage/gallerySection.jsx:47-49 | the index advances by the successor and stays in range |
| Gallery.Carousel.GoToPrevious | src/components/landingPage/gallerySection.jsx:43-45 | the index moves back by the predecessor and stays in range |
| Gallery.Carousel.Tick | src/components/landingPage/gallerySection.jsx:31-35 | while not hovered the interval applies the same successor as the next button |
| Gallery.Carousel.MouseEnter | src/components/landingPage/gallerySection.jsx:64 | hovering pauses without moving |
| Gallery.Carousel.MouseLeave | src/components/landingPage/gallerySection.jsx:65 | leaving resumes without moving |
| HowItWorks.Connector | src/components/landingPage/howItWorks.jsx:80-92 | no connector after the last step; full before the active step, partial at it, empty after it |
| HowItWorks.ConnectorMatchesCircles | src/components/landingPage/howItWorks.jsx:64-92 | a full connector joins filled circles, the partial one runs from filled to unfilled, an empty one joins unfilled ones |
| HowItWorks.Advance | src/components/landingPage/howItWorks.jsx:20-25 | the step stays below 6; it is one more, except that the last wraps to 0 |
| HowItWorks.AdvanceCycle | src/components/landingPage/howItWorks.jsx:23 | six advances return to the starting step |
| HowItWorks.Stepper.constructor | src/components/landingPage/howItWorks.jsx:14-15 | first step, not paused |
| HowItWorks.Stepper.Content | src/components/landingPage/howItWorks.jsx:108-129 | the shown step is one of the six, the one numbered active step + 1 |
| HowItWorks.Stepper.Tick | src/components/landingPage/howItWorks.jsx:18-27 | while not paused the interval advances the active step |
| HowItWorks.Stepper.StepClick | src/components/landingPage/howItWorks.jsx:33 | the clicked step becomes active; its content shows, its circle is filled and later circles are not |
| HowItWorks.Stepper.MouseEnter | src/components/landingPage/howItWorks.jsx:34 | pauses without changing the step |
| HowItWorks.Stepper.MouseLeave | src/components/landingPage/howItWorks.jsx:35 | resumes without changing the step |

## Left out

- HTTP itself (URLs, headers, the bearer token, JSON encoding of bodies and responses) is not modelled. Each request is a value and each response an abstract outcome. The backend's filtering, stats and validation are not visible to the client.
- `JSON.parse` of the stored user is a parameter `roleOf`; the parse failure the code does not handle is not modelled. The stored user is opaque text, and `JSON.stringify(data.user)` in registration is taken as that text.
- A missing `data.token` or `data.user` in a successful registration (stored by the browser as the text "undefined") is not distinguished from a present one.
- The export handler (`AdminDashboard.jsx:243-286`) is not modelled: it is file download plumbing (blobs, object URLs, anchor clicks).
- `handlePageChange` is modelled only through the Previous/Next buttons that call it, because it has no other caller.
- Timers are not modelled. The 3-second intervals of the gallery and the stepper are a `Tick` method that the caller invokes. The time-based progress of the partial connector (floating point over `Date.now()`) is the `Partial` fill without its percentage. The toasts' 5-second auto-dismiss is not modelled.
- Overlapping requests are not modelled. Their interleaving, last-response-wins races, and handlers reading state that a pending update has not yet applied are concurrency, out of scope. Every handler runs to completion against the current state.
- Un-awaited requests are not modelled as concurrent tasks. The dashboard refresh after a status change, the load on mount and the users fetch on switching tabs are a returned flag plus a later call of the fetch method. The bookings fetch started by apply filters, clear filters and the page buttons runs to completion inside the handler.
- String lengths are character counts, while JavaScript counts UTF-16 code units. Only characters outside the Basic Multilingual Plane differ.
- The presentation of toasts and the confirmation modal is not modelled: icons, titles, colours and animations.
- Focus tracking, password visibility toggles, the header's menu and scroll listeners are not modelled.
- Diagnostic logging (the `console.error` calls in the catch blocks) is not modelled.
- The HTML `required` attributes, enforced by the browser rather than by the code, are not modelled.
- Inputs that only rendered elements can produce are not modelled: a change event for the mobile number through the generic handler, a click on a circle index outside the six steps, and a page button that is disabled. These are excluded by the event types or by `requires`.
- AdminDashboard.Dashboard.SubmitUserForm: states the request sent and the form and edit state after the call, not the full new state; the two handlers it routes to state that in full.
