# utdisa core, modelled in Dafny

utdisa is the iOS app of the Indian Students Association at UT Dallas. It is a
thin SwiftUI client. It signs users in against a hosted backend, shows the team
roster and events, collects airport-pickup, feedback and sponsor requests, and
runs a housing marketplace. The logic the app owns itself is small. This
project models that logic and proves what it promises:

- the request forms: their validity rules, their enum label tables, and their
  mapping to database rows;
- the string helpers: phone formatting, the `tel://` string, and asset names;
- the session state machine in `AuthManager`;
- the sign-in screens: the screen-selection flags, the login and registration
  checks, and the "an error mentioning 404 is a success" rule;
- the housing listing form: its guard, the all-or-nothing photo upload, and the
  record it builds;
- the housing list screen: its loading/error/empty/list precedence, how a fetch
  moves its state, and the lines a listing card shows;
- the team roster's three sections, the single expanded event, and the
  form-reset handlers.

Every backend call becomes a parameter holding the outcome the backend gave.
`Backend.Client` logs every request that changes remote state or carries
credentials: sign-in, sign-up, sign-out, the profile insert, photo uploads and
the listing insert. So the model can say which request was sent, and when none
was. Each asynchronous handler is one atomic transition. Where a flow spans
several callbacks, the model has one method per step plus a method that runs
the whole flow: for example `StartSubmit`, `UploadsFinished` and `SubmitListing`.

Modules, one per Swift file, plus shared helpers:

| module | file |
|---|---|
| `Base` | `Option`, `Date`, `Uuid` |
| `Text` | the Foundation string operations used, over ASCII |
| `Numbers` | Swift's `Int(_: String)` |
| `Records` | `TeamMember`, `Event`, `HousingListing` |
| `Backend` | the request log standing for the backend client |
| `Forms`, `Wire` | `Form.swift`, `Form+Supabase.swift` |
| `UrlHandler`, `ImageNames` | `URLHandler.swift`, `ImageLoader.swift` |
| `Auth`, `AuthFlow` | `AuthManager.swift`, `AuthFlowView.swift` |
| `HousingForm`, `HousingMarketplace` | `HousingListingFormView.swift`, `HousingMarketplaceView.swift` |
| `TeamRoster`, `Events`, `FormsViews` | `TeamRosterView.swift`, `EventsView.swift`, `FormsView.swift` |

Three behaviours of the code are easy to misread:

- Logout does not force the logged-out state. It signs out and then refreshes,
  so the final state is whatever the session fetch reports.
- A partial photo upload is not kept. `uploadImages` yields `nil` unless every
  photo produced a URL.
- The "91"/12-digit branch of `AirportPickupForm.formatPhoneNumber` does not
  reformat anything. It rebuilds the cleaned digit string unchanged.

## Model

| member | source | states |
|---|---|---|
| Forms.GenderFromRaw | utdisa/Models/Form.swift:38-42 | decoding a label gives `g` exactly when `g`'s raw value is that label |
| Forms.AirportFromRaw | utdisa/Models/Form.swift:44-47 | decoding an airport label gives `a` exactly when `a`'s raw value is that label |
| Forms.CategoryFromRaw | utdisa/Models/Form.swift:92-98 | decoding a category label gives `c` exactly when `c`'s raw value is that label |
| Forms.TierFromRaw | utdisa/Models/Form.swift:116-120 | decoding a tier label gives `t` exactly when `t`'s raw value is that label |
| Forms.RawValuesInjective | utdisa/Models/Form.swift:38-129 | within each of the four enums, distinct cases have distinct raw values; distinct tiers have distinct amounts |
| Forms.TierAmounts | utdisa/Models/Form.swift:122-129 | platinum, gold, silver and bronze cost "$2000+", "$1000", "$500" and "$250" |
| Forms.FormType.Id | utdisa/Models/Form.swift:147 | the id is the raw value, and no other form type has that raw value |
| Forms.FormType.FormUrl | utdisa/Models/Form.swift:171-178 | only the airport-pickup form has an external URL, and that URL is https |
| Forms.AirportPickupForm.RequiredTexts | utdisa/Models/Form.swift:49-66 | the thirteen text fields `isValid` requires |
| Forms.AirportPickupForm.RequiredFlags | utdisa/Models/Form.swift:57-65 | the three flags `isValid` requires |
| Forms.AirportValidIff | utdisa/Models/Form.swift:49-66 | the pickup form is valid iff all 13 required texts are non-empty and all 3 flags are set |
| Forms.AirportValidityIgnoresOtherFields | utdisa/Models/Form.swift:49-66 | forms that agree on the required texts and flags agree on validity; gender, dates, airport and bag counts do not matter |
| Forms.NewAirportPickupFormInvalid | utdisa/Models/Form.swift:5-36 | a default-initialised pickup form is invalid: every required text is empty and every flag is false |
| Forms.AirportPickupForm.FormatPhoneNumber | utdisa/Models/Form.swift:69-77 | both branches return exactly the input's digits, in order |
| Forms.FormatPhoneNumberIdempotent | utdisa/Models/Form.swift:69-77 | the result is all digits, and formatting it again changes nothing |
| Forms.FeedbackValidIff | utdisa/Models/Form.swift:86-90 | feedback is valid iff name, email and message are non-empty, whatever the category |
| Forms.SponsorValidIff | utdisa/Models/Form.swift:109-114 | a sponsor form is valid iff company, contact, email and phone are non-empty, whatever the tier and message |
| Wire.PickupToDatabase | utdisa/Models/Form+Supabase.swift:84-106 | the row's `id` and `createdAt` are nil |
| Wire.PickupRowColumns | utdisa/Models/Form+Supabase.swift:26-46 | the encoded row is exactly this map: each column name bound to its form field (`flight_date` from `arrivalDate`, `flight_time` from `arrivalTime`, `port_of_entry` from `portOfEntryAirport`, `gender` as raw value); its keys are the 17 non-optional column names |
| Wire.PickupRowIgnoresDroppedFields | utdisa/Models/Form+Supabase.swift:84-106 | changing the form's email, student flag, arrival airport or consent flags leaves the row unchanged |
| Wire.PickupRowKeepsCarriedFields | utdisa/Models/Form+Supabase.swift:84-106 | two forms with the same row differ at most in the five dropped fields |
| Wire.FeedbackToDatabase | utdisa/Models/Form+Supabase.swift:110-119 | the row's `id` and `createdAt` are nil |
| Wire.FeedbackRowColumns | utdisa/Models/Form+Supabase.swift:57-60 | the encoded row maps name, email, category (raw value) and message, and nothing else; the mapping is injective |
| Wire.FeedbackDefaultCategoryRow | utdisa/Models/Form+Supabase.swift:115 | a form left on the default category is stored with category "General" |
| Wire.SponsorToDatabase | utdisa/Models/Form+Supabase.swift:123-134 | `id` and `createdAt` are nil; `message` is always present and equals the form's message, even when it is empty |
| Wire.SponsorRowColumns | utdisa/Models/Form+Supabase.swift:73-79 | the encoded row maps the six carried columns (tier as raw value) and nothing else; the mapping is injective |
| Wire.ColumnNamesDistinct | utdisa/Models/Form+Supabase.swift:26-79 | within each CodingKeys table the column names are pairwise distinct |
| UrlHandler.FormatPhoneNumber | utdisa/Utilities/URLHandler.swift:33-42 | with exactly ten digits the result has length 14; otherwise the input comes back unchanged, not digit-stripped |
| UrlHandler.FormatPhoneNumberShape | utdisa/Utilities/URLHandler.swift:35-40 | a ten-digit number is rendered as "(" + d[0..3] + ") " + d[3..6] + "-" + d[6..10] |
| UrlHandler.FormatPhoneNumberKeepsDigits | utdisa/Utilities/URLHandler.swift:33-42 | the digits of the output are the digits of the input, in both branches |
| UrlHandler.FormatPhoneNumberIdempotent | utdisa/Utilities/URLHandler.swift:33-42 | formatting twice equals formatting once |
| UrlHandler.PhoneUrl | utdisa/Utilities/URLHandler.swift:44-47 | the string is "tel://" followed by the input's digits and nothing else |
| ImageNames.AssetImageNameStem | utdisa/Extensions/ImageLoader.swift:4-10 | the fallback is never taken; the name is the part before the first '.', with " - " and then each ' ' turned into '_', lowercased |
| ImageNames.AssetImageNameClean | utdisa/Extensions/ImageLoader.swift:4-10 | an asset name contains no '.', no ' ' and no upper-case letter |
| ImageNames.AssetImageNameIdempotent | utdisa/Extensions/ImageLoader.swift:4-10 | sanitising an asset name again changes nothing |
| ImageNames.ProfileImageNameChars | utdisa/Extensions/ImageLoader.swift:14-25 | character by character: sanitised name, '_', sanitised position, where sanitising maps ' ' to '_' and lowercases; hence no space anywhere |
| Text.Digits | utdisa/Utilities/URLHandler.swift:34 | splitting on non-digits and joining never lengthens, yields only digits, and leaves an all-digit string unchanged (membership is stated by DigitsMembers) |
| Text.DigitsMembers | utdisa/Utilities/URLHandler.swift:34 | a character is in the cleaned string exactly when it is a digit of the input; non-digits contribute nothing |
| Text.DigitsIdempotent | utdisa/Models/Form.swift:70 | cleaning a cleaned string changes nothing |
| Text.ContainsIffOccurs | utdisa/Views/AuthFlowView.swift:363 | `contains` holds exactly when the text occurs at some position |
| Text.TrimEmptyIffBlank | utdisa/Views/AuthFlowView.swift:323 | trimming whitespace gives the empty string exactly when every character is whitespace |
| Text.Lower | utdisa/Views/AuthFlowView.swift:161 | lowercasing keeps the length and maps each character on its own |
| Text.Split | utdisa/Extensions/ImageLoader.swift:6 | splitting yields at least one part, and no part contains the separator |
| Text.SplitHead | utdisa/Extensions/ImageLoader.swift:6 | the first part is the text up to the first separator |
| Text.ReplaceAllSingle | utdisa/Extensions/ImageLoader.swift:8 | replacing a one-character pattern substitutes that character everywhere |
| Numbers.ParseInt | utdisa/Views/HousingListingFormView.swift:157 | a parsed value lies in the 64-bit range; the empty string does not parse |
| Numbers.ParseIntRoundTrip | utdisa/Views/HousingListingFormView.swift:157 | the decimal text of `n`, bare, with '+' or with '-', parses back to `n` or `-n` within range |
| Numbers.ParseIntRejectsStray | utdisa/Views/HousingListingFormView.swift:157 | any character that is neither a digit nor a leading sign makes the parse fail |
| Auth.DisplayName | utdisa/Utilities/AuthManager.swift:30-35 | the display name is present exactly when a profile was found and has a full name |
| Auth.AfterRefresh | utdisa/Utilities/AuthManager.swift:23-52 | logged in iff the session has a user with an email; then the email, the verified flag (iff the email is confirmed) and the profile name; otherwise all four fields are at their logged-out values |
| Auth.SignedInAs | utdisa/Utilities/AuthManager.swift:87-91 | after a successful login: logged in, with the signed-in user's email, confirmation and profile name |
| Auth.StepKeepsConsistent | utdisa/Utilities/AuthManager.swift:31-92 | every handler keeps "verified, an email or a display name implies logged in" |
| Auth.RunKeepsConsistent | utdisa/Utilities/AuthManager.swift:31-92 | any sequence of handler runs keeps that invariant |
| Auth.ReachableStatesConsistent | utdisa/Utilities/AuthManager.swift:6-116 | every state reachable from the initial one satisfies the invariant |
| Auth.LogoutEndsInRefresh | utdisa/Utilities/AuthManager.swift:68-78 | logout's result does not depend on whether sign-out succeeded; with no remote session it is logged out |
| Auth.FailedAuthChangesNothing | utdisa/Utilities/AuthManager.swift:80-116 | failed login or registration leaves all four fields as they were; a successful login does not depend on what its refresh saw |
| Auth.AuthManager.constructor | utdisa/Utilities/AuthManager.swift:6-21 | the manager starts logged out: false, nil, false, nil |
| Auth.AuthManager.RefreshSession | utdisa/Utilities/AuthManager.swift:23-53 | the new state is `AfterRefresh` of the session and profile outcomes |
| Auth.AuthManager.Logout | utdisa/Utilities/AuthManager.swift:68-78 | sends sign-out, then refreshes on both paths |
| Auth.AuthManager.Login | utdisa/Utilities/AuthManager.swift:80-100 | sends the credentials; on success reports nil and the user's fields override the refresh; on failure reports the error text and changes nothing |
| Auth.AuthManager.Register | utdisa/Utilities/AuthManager.swift:102-116 | sends sign-up; on success refreshes and reports nil; on failure reports the error text and changes nothing |
| AuthFlow.DemoEmailIsNotUtd | utdisa/Views/AuthFlowView.swift:181-188 | the demo account would fail the domain check that demo login skips |
| AuthFlow.RegistrationError | utdisa/Views/AuthFlowView.swift:321-342 | no error iff first, last and phone are non-blank, the email is a university one and the passwords match; otherwise the first failing check, in that order, decides the message |
| AuthFlow.RegistrationMessagesDistinct | utdisa/Views/AuthFlowView.swift:323-341 | the five messages are distinct, so the message names the check that failed |
| AuthFlow.RegistrationIgnoresPadding | utdisa/Views/AuthFlowView.swift:323-334 | any first name, last name and phone number that trim to the same text give the same result of the checks |
| AuthFlow.RegistrationFailure | utdisa/Views/AuthFlowView.swift:344-368 | the outer catch sees the sign-up error, or a profile-insert error not mentioning 404 |
| AuthFlow.RegistrationShown | utdisa/Views/AuthFlowView.swift:374-382 | an error is shown exactly when a failure reached the outer catch and does not mention 404; a shown error never mentions 404 |
| AuthFlow.NotFoundIsSuccess | utdisa/Views/AuthFlowView.swift:361-380 | a sign-up error or a profile-insert error that mentions 404 ends in the success alert |
| AuthFlow.Shown | utdisa/Views/AuthFlowView.swift:10-19 | login shows iff `showLogin`; registration iff not login and `showRegister`; reset iff neither and `showPasswordReset`; otherwise nothing |
| AuthFlow.AuthFlowView.constructor | utdisa/Views/AuthFlowView.swift:6-8 | the flow opens on the login screen |
| AuthFlow.LoginView.constructor | utdisa/Views/AuthFlowView.swift:26-30 | empty fields, no error, not loading, no success |
| AuthFlow.LoginView.ForgotPassword | utdisa/Views/AuthFlowView.swift:129-133 | sets (login false, register false, reset true), so the reset screen shows |
| AuthFlow.LoginView.ShowRegistration | utdisa/Views/AuthFlowView.swift:136-139 | sets register true and login false; the reset flag is untouched; registration shows |
| AuthFlow.LoginView.LoginCompleted | utdisa/Views/AuthFlowView.swift:166-177 | stops loading; an error is shown, or success is shown and the flow closes |
| AuthFlow.LoginView.Login | utdisa/Views/AuthFlowView.swift:158-178 | without a university email: that message and no request sent; with one: the sign-in request is sent and its outcome is shown, a failure leaving the flow open; the screen flags are never changed |
| AuthFlow.LoginView.DemoLogin | utdisa/Views/AuthFlowView.swift:181-199 | no domain check, and the demo address would fail one; always signs in with the fixed demo credentials; a failure shows its text and leaves the flow open; the screen flags are never changed |
| AuthFlow.RegistrationView.constructor | utdisa/Views/AuthFlowView.swift:204-212 | empty fields, no error, not loading, no success |
| AuthFlow.RegistrationView.AlreadyHaveAccount | utdisa/Views/AuthFlowView.swift:294-297 | sets login true and register false; login shows |
| AuthFlow.RegistrationView.Register | utdisa/Views/AuthFlowView.swift:321-385 | a failed check only sets its message and sends nothing; otherwise sign-up, then the profile insert with full name `first + " " + last` (untrimmed), then a refresh unless a failure reached the catch; what is shown is `RegistrationShown` |
| AuthFlow.PasswordResetView.BackToLogin | utdisa/Views/AuthFlowView.swift:415-418 | sets only `showLogin`, which is enough to show login by precedence |
| HousingForm.DefaultsAreOptions | utdisa/Views/HousingListingFormView.swift:8-29 | the defaults "1b1b", "whole" and "new" are among their pickers' options |
| HousingForm.PublicUrlInjective | utdisa/Views/HousingListingFormView.swift:176-179 | distinct file ids give distinct public URLs |
| HousingForm.StoredUrls | utdisa/Views/HousingListingFormView.swift:174-184 | the upload loop collects at most one URL per photo |
| HousingForm.StoredUrlsComplete | utdisa/Views/HousingListingFormView.swift:174-186 | there are as many URLs as photos exactly when every photo encoded and uploaded |
| HousingForm.StoredUrlsInOrder | utdisa/Views/HousingListingFormView.swift:174-180 | when all uploads succeed, URL `i` names photo `i`'s file: the URL base, "/housing-photos/listing-", the id, ".jpg" |
| HousingForm.UploadResult | utdisa/Views/HousingListingFormView.swift:185-186 | the completion gets the URLs iff every photo was stored, one per photo in photo order; otherwise nil |
| HousingForm.UploadImages | utdisa/Views/HousingListingFormView.swift:169-189 | the loop's result is `UploadResult`; it sends one storage upload per encoded photo, in order |
| HousingForm.SubmitError | utdisa/Views/HousingListingFormView.swift:135-139 | passes iff name, type and availability are non-empty, the rent parses and a photo is selected; otherwise the fixed message |
| HousingForm.BuildListing | utdisa/Views/HousingListingFormView.swift:148-164 | `id`, `user_id` and `created_at` are nil; `photo_urls` are the uploaded URLs; apartment number nil iff empty; each date present iff its toggle is on; months left is `Int(...)` of the field; the other fields are copied |
| HousingForm.MonthsLeftSaved | utdisa/Views/HousingListingFormView.swift:157 | a months field holding the digits of `n` is saved as `n` |
| HousingForm.HousingListingFormView.constructor | utdisa/Views/HousingListingFormView.swift:7-25 | the form's initial field values |
| HousingForm.HousingListingFormView.StartSubmit | utdisa/Views/HousingListingFormView.swift:134-140 | a failed guard sets the message and alert and starts nothing; otherwise `isUploading` becomes true |
| HousingForm.HousingListingFormView.SaveListing | utdisa/Views/HousingListingFormView.swift:191-204 | inserts the row; `isUploading` ends false; success alert, or "Failed to save listing: " plus the error |
| HousingForm.HousingListingFormView.UploadsFinished | utdisa/Views/HousingListingFormView.swift:141-166 | no URLs: "Failed to upload images.", `isUploading` false and no insert; otherwise the built record is inserted, a successful save keeping the error message and alert and a failed one keeping the success alert |
| HousingForm.HousingListingFormView.SubmitListing | utdisa/Views/HousingListingFormView.swift:134-167 | guard failure sends nothing; otherwise the uploads are sent, the listing is inserted only if every photo was stored, `isUploading` is false on every terminal path, and each save outcome keeps the alert flags of the other |
| HousingMarketplace.DisplayFor | utdisa/Views/HousingMarketplaceView.swift:14-38 | loading, then error with retry, then "No listings found." when empty, then the cards, each iff the earlier ones do not apply |
| HousingMarketplace.HousingMarketplaceView.constructor | utdisa/Views/HousingMarketplaceView.swift:5-9 | opens loading, with no listings |
| HousingMarketplace.HousingMarketplaceView.StartFetch | utdisa/Views/HousingMarketplaceView.swift:63-64 | a fetch starts with `isLoading` true and no error; listings untouched |
| HousingMarketplace.HousingMarketplaceView.FinishFetch | utdisa/Views/HousingMarketplaceView.swift:66-86 | success replaces the listings with the rows in backend order; failure sets the error and keeps the listings; loading ends either way |
| HousingMarketplace.HousingMarketplaceView.FetchListings | utdisa/Views/HousingMarketplaceView.swift:62-87 | after a fetch the screen shows the rows (or the empty message), or the error |
| HousingMarketplace.HousingMarketplaceView.AddListing | utdisa/Views/HousingMarketplaceView.swift:43 | opens the form sheet and touches nothing else |
| HousingMarketplace.HousingMarketplaceView.OnSheetDismiss | utdisa/Views/HousingMarketplaceView.swift:48-52 | every dismissal resets the sheet flag to false, starts a refetch and raises the success alert, keeping the listings |
| HousingMarketplace.CardLines | utdisa/Views/HousingMarketplaceView.swift:93-152 | a card always shows name, type, rent and lease lines |
| HousingMarketplace.InCard | utdisa/Views/HousingMarketplaceView.swift:93-152 | a line is on the card exactly when one of the card's parts holds it |
| HousingMarketplace.MonthsLeftShown | utdisa/Views/HousingMarketplaceView.swift:130-133 | "Months left: n" shows iff the lease is "existing" and the month count is `n` |
| HousingMarketplace.DateRangeShown | utdisa/Views/HousingMarketplaceView.swift:134-141 | the date range shows iff the listing is temporary and both dates are present |
| HousingMarketplace.AptNumberShown | utdisa/Views/HousingMarketplaceView.swift:124-127 | the apartment number shows iff it is present and non-empty |
| HousingMarketplace.TemporaryLinesShown | utdisa/Views/HousingMarketplaceView.swift:134-146 | the temporary banner shows iff the listing is temporary; the per-day rent shows iff it is temporary and has that rate |
| HousingMarketplace.PhotoShown | utdisa/Views/HousingMarketplaceView.swift:95 | the photo shows iff there is a first URL and it parses |
| TeamRoster.Filter | utdisa/Views/TeamRosterView.swift:149-166 | a section is never longer than the roster, and every member in it satisfies the section predicate |
| TeamRoster.FilterMembers | utdisa/Views/TeamRosterView.swift:149-166 | every element of a section comes from the roster, and every roster member satisfying the predicate is in the section |
| TeamRoster.FilterAppend | utdisa/Views/TeamRosterView.swift:149-166 | filtering distributes over concatenation, so each section keeps roster order |
| TeamRoster.ExecutiveIsNotEventsTeam | utdisa/Views/TeamRosterView.swift:150-166 | no executive title contains "Events & Logistics" |
| TeamRoster.SectionsExclusive | utdisa/Views/TeamRosterView.swift:149-166 | every member satisfies exactly one of the three section predicates |
| TeamRoster.FilterPartition | utdisa/Views/TeamRosterView.swift:149-166 | when exactly one of three predicates holds for every element, the three filters together hold each element exactly as often as the input does |
| TeamRoster.SectionsPartition | utdisa/Views/TeamRosterView.swift:149-166 | for any roster, the three sections together hold each member exactly as often as the roster does |
| TeamRoster.SectionsDisjoint | utdisa/Views/TeamRosterView.swift:149-166 | no member is in two sections |
| TeamRoster.SeededRoster | utdisa/Views/TeamRosterView.swift:4-124 | the 19 seeded entries, in source order |
| TeamRoster.SeededKinds | utdisa/Views/TeamRosterView.swift:4-124 | entries 0-4 are board members, 5-16 officers, 17-18 the events team |
| TeamRoster.BlockSections | utdisa/Views/TeamRosterView.swift:149-166 | a roster laid out board, officers, events has those blocks as its sections |
| TeamRoster.SeededSections | utdisa/Views/TeamRosterView.swift:4-166 | for the seeded roster the sections have sizes 5, 12 and 2 |
| TeamRoster.CardText | utdisa/Views/TeamRosterView.swift:244-261 | a card shows name and position, and the bio only when expanded |
| TeamRoster.TeamMemberCard.constructor | utdisa/Views/TeamRosterView.swift:222 | a card starts collapsed |
| TeamRoster.TeamMemberCard.Tap | utdisa/Views/TeamRosterView.swift:287-291 | a tap flips `isExpanded` |
| Events.Toggled | utdisa/Views/EventsView.swift:36-40 | toggling the expanded event collapses it; toggling any other makes it the expanded one |
| Events.ToggleTwice | utdisa/Views/EventsView.swift:36-40 | toggling twice restores the state when that event, or none, was expanded; otherwise nothing stays expanded |
| Events.ToggleExpandsOnlyTapped | utdisa/Views/EventsView.swift:33-39 | after a toggle no other event is expanded |
| Events.EventsView.constructor | utdisa/Views/EventsView.swift:4-5 | initially no event is expanded |
| Events.EventsView.OnToggle | utdisa/Views/EventsView.swift:34-42 | flips the tapped card and leaves every other card collapsed |
| FormsViews.SponsorshipLevelsAreTiers | utdisa/Views/FormsView.swift:112-116 | the default level "Gold" is offered, every level is a tier's raw value, and platinum is not offered |
| FormsViews.FeedbackFormView.constructor | utdisa/Views/FormsView.swift:62-65 | empty fields, no alert |
| FormsViews.FeedbackFormView.SubmitFeedback | utdisa/Views/FormsView.swift:98-104 | raises the alert and clears name, email and feedback |
| FormsViews.SponsorFormView.constructor | utdisa/Views/FormsView.swift:108-114 | empty fields, level "Gold", no alert |
| FormsViews.SponsorFormView.SubmitSponsorRequest | utdisa/Views/FormsView.swift:169-177 | raises the alert and clears the five text fields; the level is unchanged |
| FormsViews.AirportPickupFormView.constructor | utdisa/Views/FormsView.swift:181-187 | empty fields, arrival date now, no alert |
| FormsViews.AirportPickupFormView.SubmitPickupRequest | utdisa/Views/FormsView.swift:243-251 | raises the alert and clears the five text fields; the arrival date is unchanged |

## Left out

- Concurrency: `Task`, `DispatchQueue.main.async` and `asyncAfter` run as one atomic step per handler. Interleavings are not modelled. Neither is the one-second delay before a successful login closes the flow.
- The backend is not modelled. Session fetch, profile fetch and decoding, sign-in, sign-up, sign-out, inserts, storage uploads and the listings query become outcome parameters. The `Backend.Client` log records only requests that change state or carry credentials.
- `PasswordResetView.sendReset` is not modelled: it only forwards to the backend and shows the reply. The view's "Back to Login" button is modelled.
- `Double(_: String)` is not modelled. The housing form takes it as the function parameter `parseDouble`, so nothing is proved about which rent texts parse.
- HousingForm.BuildListing: `rent_per_day` is stated only as `parseDouble` of the field.
- `URL(string:)` is not modelled. The listing card takes it as the parameter `parsesAsUrl`.
- UrlHandler.PhoneUrl: returns the string handed to `URL(string:)`, not the optional URL.
- Forms.FormType.FormUrl: the same applies; the URL is the string.
- Unicode is not modelled; the text helpers are ASCII only. `decimalDigits` is read as '0'-'9', `.whitespaces` as space and tab, and `lowercased()` maps only 'A'-'Z'.
- Random values become parameters: `UUID()` file names, roster ids, and listing ids. `Date()` becomes the `now` parameter.
- JPEG encoding is an outcome per photo. Photo picking and image loading (`PhotosPicker`, `UIImage`) are left out; a selected photo is identified by its position.
- Card text formatting is not modelled: `String(format: "%.2f")`, `DateFormatter`, `RelativeDateTimeFormatter` and `capitalized`. HousingMarketplace.CardLines records the raw values each line shows.
- The newest-first order of fetched listings is a property of the backend query. The model keeps the rows in the order received and does not check that order.
- `Event.sampleEvents` is not part of this model. The events screen takes its list as a parameter.
- The team card's `mailto:` link and its force-unwrapped URL are not modelled. Neither are the LinkedIn link, profile images and all layout and theming.
- `FormsService.swift`, `AboutISAView.swift`, `ContentView.swift`, `ISATheme.swift` and `utdisaApp.swift` are not part of this model.
