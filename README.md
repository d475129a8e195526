# Business directory front end, modelled in Dafny

This project models the client-side logic of a React business-listing site.

**Browsing and searching.** Visitors browse listings and narrow them by a free-text term, a category and a city. The criteria are mirrored into the address bar, and a city drop-down is built from the fetched list.

**Phone reveal.** A business's phone number is revealed only after the visitor files a lead through a contact form. The number then also appears as a WhatsApp link.

**Ratings.** Visitors rate businesses with a five-star widget.

**Admin pages.** An admin sees every listing split into admin and user tabs. A public page shows the admin's curated listings with the same filters and a result count.

**Validators.** The contact page and the landing page's "Get Started" box validate email and phone numbers with regular expressions.

**Session.** The application shell keeps the session in local storage and guards the owner and admin routes.

Modules follow the source's components:

| module | models |
|---|---|
| `Seqs`, `Order`, `Text` | `Array.prototype.filter`, `new Set`, `sort()`, `trim()`, `toLowerCase()`, `includes` and the `replace` calls the handlers use, each with its properties |
| `Patterns` | the four regular expressions as recursive predicates, with lemmas stating in plain terms what each accepts |
| `Listings` | the shared listing query (`filterBusinesses`) and the city facet |
| `ContactGate` | the Locked / FormOpen / Revealed state machine behind the phone button, and the WhatsApp link |
| `Browse` | the browse page as a class: criteria, address bar, per-business phone map |
| `AdminListings` | the admin-listings page as a class, and its result label |
| `AdminDashboard` | the admin dashboard as a class: tabs, name search, fetch / delete / edit |
| `ContactFormModal` | the lead form: validation, field edits, the submit that reveals the phone |
| `ContactPage` | the contact page's normalise-then-validate chain |
| `GrowSection` | the landing page's email box |
| `BusinessDetail` | the single-business page as a class with one phone slot |
| `BusinessDetailModal` | the rating panel as a class: prefill, star row, submit / delete guards |
| `Session`, `App` | local storage, session restore, login / logout / modal handlers, route guards |

**How the source maps onto Dafny.**
- Handlers that set React state are methods of a class whose fields are that state. Each method's `ensures` gives the new state.
- React effects (`filterBusinesses`, `updateURL`, the city facet) are modelled in their settled form: they are functions of the class's fields.
- Network responses, `window.confirm` and the clock become parameters.
- A JavaScript string is "truthy" when it is not empty.
- A missing field or an absent `revealedPhone` is the empty string.

## Model

| member | source | states |
|---|---|---|
| Seqs.Distinct | src/pages/Browse.jsx:51 | `new Set` keeps exactly the values of the list, each at most once |
| Order.SortStrings | src/pages/Browse.jsx:51 | sorting is a permutation of its input |
| Order.SortStringsSorted | src/pages/Browse.jsx:51 | the sorted list is in ascending order |
| Text.IncludesIff | src/pages/Browse.jsx:78-81 | `includes` holds exactly when the needle occurs at some index of the haystack |
| Text.Trim | src/pages/Contact.jsx:20-23 | `trim()` is empty iff the string is all white space; otherwise it starts and ends with a non-space |
| Text.BlankIffTrimEmpty | src/components/ContactFormModal.jsx:34 | `!s.trim()` holds exactly when every character is white space |
| Text.StripIgnoresTrim | src/pages/Contact.jsx:22 | removing all white space makes the preceding `trim()` redundant |
| Text.NatToStringRoundTrip | src/components/AdminListings.jsx:105 | the rendered count reads back as the same number |
| Patterns.LooseEmail | src/components/ContactFormModal.jsx:40 | the unanchored `\S+@\S+\.\S+` search; characterised in both directions by `LooseEmailIff` |
| Patterns.LooseEmailIff | src/components/ContactFormModal.jsx:40 | the unanchored email test passes exactly the strings containing non-blank, `@`, a non-blank run, `.`, non-blank |
| Patterns.LooseEmailNeedsAt | src/components/ContactFormModal.jsx:40 | a string with no `@` fails the email test |
| Patterns.LoosePhone | src/components/ContactFormModal.jsx:46 | the anchored `^\+?[\d\s-()]+$` test; characterised by `LoosePhoneIff` |
| Patterns.LoosePhoneIff | src/components/ContactFormModal.jsx:46 | the loose phone test passes an optional `+` then one or more digits, white space, `-`, `(` or `)` |
| Patterns.StrictEmail | src/pages/Contact.jsx:31-32 | the anchored email test shared with the landing page; characterised by `StrictEmailIff` |
| Patterns.StrictEmailIff | src/pages/Contact.jsx:31-32 | the anchored email test passes exactly: no white space, one `@` only, and a `.` after it with a character on each side |
| Patterns.StrictPhone | src/pages/Contact.jsx:37-38 | the optional country code then ten digits; bounded by `StrictPhoneShape` and `StrictPhoneDigits` |
| Patterns.StrictPhoneShape | src/pages/Contact.jsx:37-38 | an accepted phone is 10 to 15 characters long and ends in ten digits |
| Patterns.StrictPhoneDigits | src/pages/Contact.jsx:37 | a run of digits passes exactly when it has 10 to 13 of them |
| Listings.ApplyCriteria | src/pages/Browse.jsx:72-98 | the three optional steps in the source's order; what they select is stated by `ApplyCriteriaIsConjunction` and `ApplyCriteriaMembers` |
| Listings.ApplyCriteriaIsConjunction | src/pages/Browse.jsx:72-98 | the three optional filter steps equal one filter by the conjunction of the criteria that are set |
| Listings.ApplyCriteriaMembers | src/pages/Browse.jsx:75-95 | a listing is shown iff it was fetched and meets every set criterion |
| Listings.ApplyCriteriaSubsequence | src/pages/Browse.jsx:76-95 | the filtered list keeps the fetched order and neither duplicates nor invents listings |
| Listings.ApplyNoCriteria | src/pages/Browse.jsx:72-98 | with no criterion set the fetched list is shown unchanged |
| Listings.StepOrderIrrelevant | src/pages/Browse.jsx:75-95 | the three steps, each skipped when its criterion is unset, give the same list in any of the six orders |
| Listings.MatchesTextIff | src/pages/Browse.jsx:76-82 | the text step is a case-insensitive substring test on the name or the description |
| Listings.CityMatchExamples | src/pages/Browse.jsx:91-95 | city matching ignores case but not a trailing space |
| Listings.CategoryMatchIsExact | src/pages/Browse.jsx:85-89 | category matching is case-sensitive |
| Listings.AvailableCitiesSpec | src/pages/Browse.jsx:50-53 | the city options are strictly ascending and are exactly the cities of the fetched listings |
| ContactGate.GateOf | src/pages/Browse.jsx:322-330 | a phone counts as revealed exactly when the stored value is non-empty |
| ContactGate.Click | src/pages/Browse.jsx:119-124 | the phone button; stable on a revealed gate by `RevealedIsStable`, never revealing by `OnlySuccessReveals` |
| ContactGate.Success | src/pages/Browse.jsx:126-132 | the form's success; the only way to a revealed gate, by `OnlySuccessReveals` and `LeadRevealsPhone` |
| ContactGate.Dismiss | src/pages/Browse.jsx:368 | closing the form; never reveals and never hides, by `RevealedIsStable` and `OnlySuccessReveals` |
| ContactGate.RevealedIsStable | src/pages/Browse.jsx:119-124 | a revealed phone stays revealed under clicks and dismissals |
| ContactGate.OnlySuccessReveals | src/pages/Browse.jsx:119-132 | only a successful lead reveals a phone |
| ContactGate.LeadRevealsPhone | src/pages/Browse.jsx:119-132 | from Locked, a click opens the form and success with a real phone reveals it |
| ContactGate.EmptyPhoneNeverRevealed | src/pages/BusinessDetail.jsx:216-223 | an empty business phone is never shown as revealed |
| ContactGate.WhatsAppHref | src/pages/BusinessDetail.jsx:225 | the link starts with `https://wa.me/` and is no longer than prefix plus phone |
| ContactGate.WhatsAppNumber | src/pages/BusinessDetail.jsx:225 | the number in the link is only digits, each digit of the phone exactly as often as the phone has it, in the phone's order |
| ContactGate.WhatsAppKeepsPlainNumber | src/pages/Browse.jsx:332-334 | a phone of digits only goes into the link unchanged |
| Browse.UrlRoundTrip | src/pages/Browse.jsx:31-39 | reloading at the written address restores the same criteria |
| Browse.UrlNormalises | src/pages/Browse.jsx:100-106 | the rewritten query keeps exactly the recognised non-empty parameters, with their values |
| Browse.UrlEmptyIffNoCriteria | src/pages/Browse.jsx:100-106 | the query is empty iff no criterion is set |
| Browse.BrowsePage.constructor | src/pages/Browse.jsx:31-44 | criteria come from the address bar, which is then in sync; nothing fetched or revealed |
| Browse.BrowsePage.FetchBusinesses | src/pages/Browse.jsx:60-70 | success replaces the list, failure keeps it, loading ends; nothing else changes |
| Browse.BrowsePage.SetSearchTerm | src/pages/Browse.jsx:55-58 | only the term changes, and the address bar follows it |
| Browse.BrowsePage.SetCategory | src/pages/Browse.jsx:55-58 | only the category changes, and the address bar follows it |
| Browse.BrowsePage.SetCity | src/pages/Browse.jsx:55-58 | only the city changes, and the address bar follows it |
| Browse.BrowsePage.HandleClearFilters | src/pages/Browse.jsx:108-113 | every criterion unset, empty query, the whole fetched list shown |
| Browse.BrowsePage.HandleReviewClick | src/pages/Browse.jsx:115-117 | the rating modal opens on that business |
| Browse.BrowsePage.HandleCloseModal | src/pages/Browse.jsx:134-137 | the modal closes and the list is fetched again |
| Browse.BrowsePage.WhatsAppLink | src/pages/Browse.jsx:330-342 | a card has a WhatsApp link exactly while its phone is revealed |
| Browse.BrowsePage.HandlePhoneClick | src/pages/Browse.jsx:119-124 | a revealed card does nothing; otherwise the form opens on that card |
| Browse.BrowsePage.HandleContactSuccess | src/pages/Browse.jsx:126-132 | the phone is stored under the open form's business only, and the form closes |
| Browse.BrowsePage.CloseContactForm | src/pages/Browse.jsx:368 | closing the form stores nothing; an open gate returns to Locked |
| AdminListings.ResultsLabel | src/components/AdminListings.jsx:105 | the results line; its parts are stated by `ResultsLabelSpec` and `SingularOnlyForOne` |
| AdminListings.ResultsLabelSpec | src/components/AdminListings.jsx:105 | the label begins with the count in decimal, followed by the noun and "found" |
| AdminListings.SingularOnlyForOne | src/components/AdminListings.jsx:105 | "business" is used exactly when the count is one |
| AdminListings.AdminListingsPage.constructor | src/components/AdminListings.jsx:7-14 | nothing fetched, no criteria, loading |
| AdminListings.AdminListingsPage.FetchBusinesses | src/components/AdminListings.jsx:31-41 | success replaces the list, failure keeps it, loading ends |
| AdminListings.AdminListingsPage.HandleSearchChange | src/components/AdminListings.jsx:60 | only the term changes |
| AdminListings.AdminListingsPage.HandleCategoryChange | src/components/AdminListings.jsx:61 | only the category changes |
| AdminListings.AdminListingsPage.HandleCityChange | src/components/AdminListings.jsx:62 | only the city changes |
| AdminListings.AdminListingsPage.HandleClearFilters | src/components/AdminListings.jsx:63-67 | no criterion set, the clear button hidden, the whole list shown |
| AdminListings.AdminListingsPage.HandleBusinessClick | src/components/AdminListings.jsx:68 | the modal opens on that business |
| AdminListings.AdminListingsPage.HandleCloseModal | src/components/AdminListings.jsx:69 | the modal closes |
| AdminDashboard.UserListings | src/components/AdminDashboard.jsx:39 | the users' tab; stated by `UserListingsSpec` |
| AdminDashboard.UserListingsSpec | src/components/AdminDashboard.jsx:39 | the users' tab holds exactly the unflagged listings in order; with the flagged ones it accounts for every listing once |
| AdminDashboard.ActiveList | src/components/AdminDashboard.jsx:76-84 | the rows are exactly the tab's listings whose name contains the query, each as often as the tab lists it, in the tab's order |
| AdminDashboard.EmptyQueryShowsTab | src/components/AdminDashboard.jsx:76-84 | an empty search shows the tab's list unchanged |
| AdminDashboard.SearchIgnoresDescription | src/components/AdminDashboard.jsx:81-83 | only the company name decides the search |
| AdminDashboard.Unauthorised | src/components/AdminDashboard.jsx:41 | the 401/403 test that sends the admin home; used by `FetchAllData` |
| AdminDashboard.AdminDashboardPage.constructor | src/components/AdminDashboard.jsx:9-18 | the initial state, with the users' tab derived from the full list |
| AdminDashboard.AdminDashboardPage.FetchAllData | src/components/AdminDashboard.jsx:24-49 | success replaces the lists and rederives the users' tab; 401/403 navigates home; other failures set the error |
| AdminDashboard.AdminDashboardPage.HandleDelete | src/components/AdminDashboard.jsx:51-63 | without confirmation nothing changes; a failed delete sets the error and keeps everything else; a good one leaves exactly what `fetchAllData` leaves: new lists, or home on 401/403, or the fetch error |
| AdminDashboard.AdminDashboardPage.HandleEdit | src/components/AdminDashboard.jsx:65-68 | the form opens on the chosen listing; the users' tab stays derived from the full list |
| AdminDashboard.AdminDashboardPage.OpenAddForm | src/components/AdminDashboard.jsx:99 | the form opens; the users' tab stays derived from the full list |
| AdminDashboard.AdminDashboardPage.HandleFormClose | src/components/AdminDashboard.jsx:70-74 | the form closes, nothing is edited, and the refetch leaves exactly what `fetchAllData` leaves: new lists, or home on 401/403, or the fetch error |
| AdminDashboard.AdminDashboardPage.SetActiveTab | src/components/AdminDashboard.jsx:119-139 | the chosen tab becomes active; the users' tab stays derived from the full list |
| AdminDashboard.AdminDashboardPage.SetSearchQuery | src/components/AdminDashboard.jsx:110 | the search changes the rows but never the tab counts; the users' tab stays derived from the full list |
| ContactFormModal.FormData.With | src/components/ContactFormModal.jsx:18-21 | the edited field takes the value and the others keep theirs |
| ContactFormModal.ValidateForm | src/components/ContactFormModal.jsx:31-51 | one entry per failing field, holding that field's message |
| ContactFormModal.ValidateFormMessages | src/components/ContactFormModal.jsx:34-48 | a blank field is "required" and never also "invalid"; a non-blank one is reported exactly when it fails its pattern |
| ContactFormModal.ValidateFormEmptyIff | src/components/ContactFormModal.jsx:78-82 | no message at all exactly when the form is acceptable |
| ContactFormModal.AcceptableIff | src/components/ContactFormModal.jsx:31-51 | the acceptable forms in plain terms, via `trim()` and the patterns' descriptions |
| ContactFormModal.NoAtIsInvalid | src/components/ContactFormModal.jsx:38-42 | a non-blank email without `@` is "Email is invalid" |
| ContactFormModal.NotAnEmailIsInvalid | src/components/ContactFormModal.jsx:40-41 | "not-an-email" is reported as invalid |
| ContactFormModal.BlankPhoneIsRequired | src/components/ContactFormModal.jsx:44-48 | any non-empty all-white-space phone is "required", though the phone pattern alone accepts it |
| ContactFormModal.LeadFor | src/components/ContactFormModal.jsx:87-95 | the lead carries the business's id, name and phone and the customer's fields as typed |
| ContactFormModal.ContactForm.constructor | src/components/ContactFormModal.jsx:5-11 | empty form, no errors, not submitting |
| ContactFormModal.ContactForm.HandleChange | src/components/ContactFormModal.jsx:16-29 | the field takes the value and loses its message; other fields and messages are untouched |
| ContactFormModal.ContactForm.HandleSubmit | src/components/ContactFormModal.jsx:75-107 | an unacceptable form shows the messages and sends nothing; otherwise the lead is built from the form as typed, submitting ends, and the business phone goes to `onSuccess` |
| ContactPage.Normalise | src/pages/Contact.jsx:20-23 | trim every field and strip white space from the phone; stated by `PhoneNormalisation` and `FilterDropsAllSpaces` |
| ContactPage.Check | src/pages/Contact.jsx:26-41 | presence, then the email pattern, then the phone pattern; stated by `PresenceCheckedFirst` and `CheckIgnoresMessage` |
| ContactPage.HandleSubmit | src/pages/Contact.jsx:16-41 | `Check` after `Normalise`; stated by `HandleSubmitSpec` |
| ContactPage.HandleSubmitSpec | src/pages/Contact.jsx:16-44 | a submission goes out exactly when the normalised name, email and phone are present and pass their patterns; the payload is the normalised form |
| ContactPage.PhoneNormalisation | src/pages/Contact.jsx:22 | the normalised phone is the input with all white space removed |
| ContactPage.PresenceCheckedFirst | src/pages/Contact.jsx:26-29 | a blank required field gives the "fill all required fields" alert before any format check |
| ContactPage.FilterDropsAllSpaces | src/pages/Contact.jsx:22 | an all-white-space phone normalises to empty |
| ContactPage.AcceptedEmailShape | src/pages/Contact.jsx:31-35 | an accepted email has no white space, one `@`, and a `.` after it with characters around |
| ContactPage.AcceptedPhoneShape | src/pages/Contact.jsx:37-41 | an accepted phone is 10 to 15 characters, ends in ten digits and has no white space |
| ContactPage.MessageNeverValidated | src/pages/Contact.jsx:23-41 | the message never decides whether the form goes out |
| ContactPage.CheckIgnoresMessage | src/pages/Contact.jsx:26-41 | the checks read only the name, email and phone |
| ContactPage.SpacedPhoneAccepted | src/pages/Contact.jsx:22 | spaces typed inside a valid phone do not stop the submission |
| GrowSection.GetStarted | src/components/GrowSection.jsx:8-29 | the button's handler; its outcome is stated by `GetStartedSpec` |
| GrowSection.KeyPress | src/components/GrowSection.jsx:31-35 | Enter acts exactly like the button; any other key changes nothing |
| GrowSection.OnChange | src/components/GrowSection.jsx:55-58 | any edit sets the email and clears the error |
| GrowSection.StrictEmailNotBlank | src/components/GrowSection.jsx:9-16 | an email passing the pattern is never blank |
| GrowSection.GetStartedSpec | src/components/GrowSection.jsx:8-29 | blank gives "Please enter your email"; other failures give "Please enter a valid email"; a valid email clears the error and goes to the callback as typed, when it exists |
| GrowSection.SurroundingSpaceRejected | src/components/GrowSection.jsx:16-19 | an email with a leading or trailing space is refused |
| GrowSection.EditThenSubmit | src/components/GrowSection.jsx:55-58 | after an edit the error is clear and the next click judges the new text |
| BusinessDetail.FetchErrorMessage | src/pages/BusinessDetail.jsx:47-51 | "Business not found" exactly for 404, "Failed to fetch business details" otherwise |
| BusinessDetail.DetailPage.WhatsAppLink | src/pages/BusinessDetail.jsx:223-233 | the link exists exactly while the phone is revealed |
| BusinessDetail.DetailPage.constructor | src/pages/BusinessDetail.jsx:30-34 | no business, loading, the gate locked |
| BusinessDetail.DetailPage.FetchBusinessDetail | src/pages/BusinessDetail.jsx:40-56 | success stores the business; failure stores the mapped message; loading ends |
| BusinessDetail.DetailPage.HandlePhoneReveal | src/pages/BusinessDetail.jsx:71-75 | the form opens only while no phone is revealed |
| BusinessDetail.DetailPage.HandleContactSuccess | src/pages/BusinessDetail.jsx:77-80 | the phone is stored and the form closes |
| BusinessDetail.DetailPage.SendEnquiry | src/pages/BusinessDetail.jsx:235-236 | the form opens whatever the reveal state; a revealed phone stays revealed |
| BusinessDetail.DetailPage.CloseContactForm | src/pages/BusinessDetail.jsx:278 | closing the form stores nothing |
| BusinessDetailModal.FindIndex | src/components/BusinessDetailModal.jsx:38-40 | the first index holding a rating by the user, or none |
| BusinessDetailModal.FindByUser | src/components/BusinessDetailModal.jsx:38-40 | `find` returns a rating by the user iff there is one, and the first |
| BusinessDetailModal.Prefill | src/components/BusinessDetailModal.jsx:35-44 | the form is prefilled only with a token and a stored user, from that user's first rating |
| BusinessDetailModal.PrefillTakesFirst | src/components/BusinessDetailModal.jsx:38-40 | of two ratings by the same user, the earlier one is used |
| BusinessDetailModal.RejectionMessage | src/components/BusinessDetailModal.jsx:81 | the server's non-empty message, else "Failed to submit rating" |
| BusinessDetailModal.RatingPanel.constructor | src/components/BusinessDetailModal.jsx:6-15 | the initial state: no ratings, average 0, total 0, no rating chosen, not signed in |
| BusinessDetailModal.RatingPanel.CheckAuth | src/components/BusinessDetailModal.jsx:22-25 | signed in exactly when the stored token is truthy |
| BusinessDetailModal.RatingPanel.FetchRatings | src/components/BusinessDetailModal.jsx:27-49 | the list, average and total are replaced and the user's first rating prefilled; a failed request changes none of them |
| BusinessDetailModal.RatingPanel.RenderStars | src/components/BusinessDetailModal.jsx:109-129 | five stars valued 1 to 5, filled exactly up to the shown value |
| BusinessDetailModal.RatingPanel.ClickStar | src/components/BusinessDetailModal.jsx:120 | a click chooses that star's value |
| BusinessDetailModal.RatingPanel.HoverStar | src/components/BusinessDetailModal.jsx:121 | hovering shows that star's value |
| BusinessDetailModal.RatingPanel.LeaveStars | src/components/BusinessDetailModal.jsx:122 | leaving shows the chosen rating again |
| BusinessDetailModal.RatingPanel.SetComment | src/components/BusinessDetailModal.jsx:175 | the comment takes the typed text |
| BusinessDetailModal.RatingPanel.HandleRatingSubmit | src/components/BusinessDetailModal.jsx:51-85 | signed out: login prompt; no rating: selection prompt; both leave the banner and the submitting flag alone; otherwise the rating is sent, the outcome shown and submitting ends |
| BusinessDetailModal.RatingPanel.HandleDeleteRating | src/components/BusinessDetailModal.jsx:87-107 | without confirmation nothing changes; a good delete resets the rating and comment and shows success, keeping the error; a failed one sets the error, keeping the rest |
| BusinessDetailModal.RatingPanel.FormTitle | src/components/BusinessDetailModal.jsx:156 | "Update Your Rating" exactly when a rating is chosen |
| BusinessDetailModal.RatingPanel.SubmitLabel | src/components/BusinessDetailModal.jsx:187-191 | "Submitting..." while submitting, else "Update Rating" exactly when a rating is chosen and "Submit Rating" otherwise |
| Session.StoredUser | src/App.jsx:23-28 | the parsed user entry; used by `Restore` and `SaveThenRestore` |
| Session.SaveSession | src/App.jsx:32-33 | the two writes of a login; stated by `SaveThenRestore` and `SaveKeepsOthers` |
| Session.ClearSession | src/App.jsx:50-51 | the two removals of a logout; stated by `ClearThenRestore` |
| Session.Restore | src/App.jsx:22-29 | signed in exactly when token and user entries are truthy; a user only then |
| Session.SaveThenRestore | src/App.jsx:31-38 | after login a reload restores that user, provided the token is non-empty |
| Session.ClearThenRestore | src/App.jsx:49-54 | after logout a reload restores no session, and other entries are kept |
| Session.SaveKeepsOthers | src/App.jsx:31-33 | login writes only the token and user entries |
| Session.RoutesPartitionSessions | src/App.jsx:115-126 | no session reaches both owner and admin routes; a signed-in one reaches exactly one kind |
| Session.RoleIsCaseSensitive | src/App.jsx:117-125 | role "Admin" is not an admin |
| App.AppShell.constructor | src/App.jsx:22-29 | the session is what local storage restores |
| App.AppShell.HandleLogin | src/App.jsx:31-38 | storage written, user adopted, login modal closed, carried email cleared |
| App.AppShell.HandleSignup | src/App.jsx:40-47 | the same, closing the sign-up modal |
| App.AppShell.HandleLogout | src/App.jsx:49-54 | both entries removed and the session dropped; modals untouched |
| App.AppShell.HandleGetStarted | src/App.jsx:56-59 | the email is carried into the opened login modal |
| App.AppShell.HandleCloseLogin | src/App.jsx:61-64 | login modal closed, carried email forgotten |
| App.AppShell.HandleCloseSignup | src/App.jsx:66-69 | sign-up modal closed, carried email forgotten |
| App.AppShell.HandleSwitchToSignup | src/App.jsx:71-74 | from login to sign-up |
| App.AppShell.HandleSwitchToLogin | src/App.jsx:76-79 | from sign-up to login |
| App.AppShell.OpenLogin | src/App.jsx:86 | the login modal opens |
| App.AppShell.OpenSignup | src/App.jsx:87 | the sign-up modal opens |
| App.AppShell.RouteView | src/App.jsx:110-126 | the three guarded routes render their page or redirect home by the session; only they redirect |
| App.DashboardsExclusive | src/App.jsx:115-126 | no session sees both dashboards; a signed-out visitor is redirected from every guarded route |

## Left out

- Network calls become parameters of the methods that use them. This covers the `api` requests and the contact page's fire-and-forget send. Each request's outcome is taken as given.
- ContactFormModal.ContactForm.HandleSubmit: `sendToGoogleSheets` (src/components/ContactFormModal.jsx:53-73) is not modelled. Its `no-cors` request cannot be read and its result is discarded, so it has no effect on the form's state or on `onSuccess`.
- `window.confirm` becomes a parameter.
- The clock becomes a parameter: the lead's `toLocaleString()` timestamp.
- `setTimeout` banners that clear themselves are not modelled.
- React scheduling, re-renders and effect timing are not modelled. Effects are taken in their settled form.
- A refetch that a handler starts after its own update is a separate call: `fetchRatings` after a rating is submitted or deleted, and `fetchBusinesses` after the rating modal closes. In the dashboard and the browse page the refetch result is a parameter.
- Rules enforced by the server are not modelled: who may rate, and the average and total of the ratings. Their values are shown as received.
- Displayed averages (`toFixed`) and the admin-listings half-star `renderStars` are left out, because they use floating-point arithmetic.
- Date formatting (`toLocaleDateString`) is left out.
- Text.Lower: `toLowerCase()` is modelled for ASCII letters only; other characters are unchanged. Locale-sensitive and non-ASCII case mapping is not modelled.
- Order.SortStrings: JavaScript's default sort compares UTF-16 code units, while the model compares characters. The two agree except between characters outside the Basic Multilingual Plane and those from U+E000 to U+FFFF.
- Session.Stored: `JSON.parse` of the stored user is modelled as giving back the stored record.
- Session.Restore: a user entry holding malformed JSON makes `JSON.parse` throw inside the start-up effect (src/App.jsx:27). The exception is uncaught, so the program never reaches a usable state. JSON that parses to something other than a user record, such as `null` or `{}`, does not throw. For every entry that is not a stored user record, the model chooses a signed-in session with no user. That is the model's choice, not the program's behaviour.
- The browse page's count line is not modelled. It always uses the plural (src/pages/Browse.jsx:217), so a count of one reads "1 businesses found". Only the admin-listings label has the singular case (AdminListings.ResultsLabel).
- Markup, styling, icons and static page text are not modelled.
- These components are not part of this model: the Navbar beyond its two buttons, and the login, sign-up and business-form components.
