# woman-safety: a Dafny model of the application logic

woman-safety is a Next.js web application. A user keeps a list of
emergency contacts and can send them all an SOS text message with a map
link to their position. Moderators review incident reports on a map in an
admin area that a middleware guards. This project models the logic behind
those features and proves properties of the model:

- the contact schema (three minimum-length rules with their messages);
- the contact server actions: parse, create, delete and list, over a
  contact table kept as a sequence of rows;
- the access gate in front of the admin area, and the role check it calls;
- the SOS endpoint: coordinate check, message building, and one SMS per
  contact, sent through an outbox;
- the report listing and location endpoints: session gate, filters,
  newest-first ordering, error-code mapping;
- the client components: contact search, filter, delete and relationship
  options; the contact form's state, validation and server-error mapping;
  the map page's report filter, marker guard, colours and badges.

Layout: one module per source file. `Js` holds the JavaScript semantics
the code relies on (`trim`, `toLowerCase`, `includes`, `startsWith`,
`length` in UTF-16 units, truthiness, thrown values). `Queries` holds
`filter`, the database's newest-first ordering, and `Array.from(new Set(…))`.

Foreign calls are inputs of the model:

- The database is a sequence of rows; whether a query throws is a parameter.
- The SMS provider is an outbox that records every send request; whether
  each send is rejected is a parameter.
- The session lookup of the authentication library is a value of
  `VerifyRole.SessionLookup`.
- The clock is a parameter (`now`, `sentAt`), and so are the ids the
  database assigns.

Three behaviours of the code worth noting:

- A non-OK answer from the role-verification endpoint redirects to
  `/unauthorized`, not to the sign-in page. Only a thrown fetch or a body
  that is not JSON leads to `/sign-in`.
- The `middleware` function itself sends a request without a session cookie
  to `/sign-in` whatever its path. As configured, though, it runs only on
  `/admin` and the paths below it (`Middleware.Gate`): other pages pass
  without a cookie.
- In the report listing, P1001 gives 503 and P2024 gives 504. The 15-second
  timer's rejection has no code and gives 500 "Failed to fetch reports".

## Model

| member | source | states |
|---|---|---|
| Js.TrimStart | src/server/contacts.ts:35-37 | the result is a suffix of the input, everything cut off is whitespace, and it does not start with whitespace |
| Js.TrimEnd | src/server/contacts.ts:35-37 | the result is a prefix of the input, everything cut off is whitespace, and it does not end with whitespace |
| Js.Trim | src/server/contacts.ts:35-37 | `trim()` yields an infix of the input with only whitespace around it, neither starting nor ending with whitespace |
| Js.ComposeTrims | src/server/contacts.ts:35-37 | cutting leading whitespace and then trailing whitespace leaves an infix with whitespace on both sides |
| Js.TrimUntrimmed | src/server/contacts.ts:35-37 | a string without surrounding whitespace is its own trim |
| Js.TrimSurrounded | src/server/contacts.ts:35-37 | one non-whitespace character with only whitespace around it trims to that character |
| Js.TrimIdempotent | src/server/contacts.ts:35-37 | trimming twice is trimming once |
| Js.ContainsIff | src/components/display-contacts.tsx:96-97 | `includes` holds exactly when the term occurs at some position |
| Js.ToLower | src/components/display-contacts.tsx:96 | `toLowerCase` keeps the length and lowers each character |
| Js.ToLowerIdempotent | src/components/display-contacts.tsx:96 | lowering twice is lowering once |
| Js.JsLength | src/app/schema/contact.ts:4-8 | the UTF-16 length lies between one and two units per character, and equals the character count without astral characters |
| Queries.SublistRefl | src/components/display-contacts.tsx:100-102 | the unfiltered list is a sublist of itself |
| Queries.SublistMembers | src/components/display-contacts.tsx:94-98 | a sublist holds only elements of the whole |
| Queries.SublistKeepsIncreasing | src/components/display-contacts.tsx:134-136 | a strictly increasing key stays strictly increasing along a sublist |
| Queries.Filter | src/components/display-contacts.tsx:94-98 | `filter` keeps exactly the elements that pass, and no more than the input |
| Queries.FilterSublist | src/components/display-contacts.tsx:94-98 | `filter` keeps the survivors in their original order |
| Queries.FilterAppend | src/components/reports-map.tsx:43-46 | filtering distributes over concatenation |
| Queries.FilterAll | src/app/api/reports/route.ts:20-23 | filtering by a test every element passes changes nothing |
| Queries.FilterMultiset | src/components/reports-map.tsx:43-46 | a filtered element occurs as often as in the input, and a rejected one not at all |
| Queries.InsertDesc | src/server/contacts.ts:19-23 | inserting into a newest-first list keeps it newest-first and adds exactly that element |
| Queries.SortDesc | src/server/contacts.ts:19-23 | `orderBy: { createdAt: "desc" }` gives a newest-first permutation of the rows |
| Queries.HeadIsLargest | src/server/contacts.ts:19-23 | the head of a newest-first list is at least as new as any element |
| Queries.FilterSorted | src/app/api/location/route.ts:8-16 | a filtered newest-first list is newest-first |
| Queries.FilterInsertFront | src/app/api/location/route.ts:8-16 | filtering commutes with inserting an element at the front |
| Queries.FilterInsert | src/app/api/location/route.ts:8-16 | filtering commutes with inserting an element anywhere |
| Queries.FilterSortCommute | src/app/api/location/route.ts:8-16 | filtering then ordering equals ordering then filtering |
| Queries.FirstIndex | src/components/display-contacts.tsx:134-136 | the first position of an element holds it and has no earlier copy |
| Queries.FirstIndexPrefix | src/components/display-contacts.tsx:134-136 | the first position within a prefix is the first position in the whole |
| Queries.Distinct | src/components/display-contacts.tsx:134-136 | `Array.from(new Set(s))` has the same elements as `s`, no duplicates, in first-occurrence order |
| ContactSchema.FieldIssues | src/app/schema/contact.ts:4-8 | one rule yields no issue when it holds, otherwise its one issue with its own message |
| ContactSchema.Collect | src/app/schema/contact.ts:3-9 | no issues exactly when every rule holds; each issue names a failing field with its message; every failing field is reported; no field twice |
| ContactSchema.PathsDistinct | src/app/schema/contact.ts:3-9 | issues collected field by field never repeat a field |
| ContactSchema.Validate | src/app/schema/contact.ts:3-9 | the schema's issues for a triple: none exactly when it is accepted, one per failing rule with that rule's message, no field twice |
| ContactSchema.SafeParse | src/app/schema/contact.ts:3-9 | `safeParse` succeeds exactly when the triple is accepted, returns it unchanged, and otherwise carries a non-empty issue list |
| ContactSchema.RuleHolds | src/app/schema/contact.ts:3-9 | one field's length rule; `Validate` states that a field gets an issue exactly when its rule fails, and `NameRule`, `PhoneBoundary` and `RelationshipRule` give the boundaries |
| ContactSchema.Accepts | src/app/schema/contact.ts:3-9 | all three rules hold; `Validate` and `SafeParse` state that it is exactly the absence of issues |
| ContactSchema.NameRule | src/app/schema/contact.ts:4 | a name shorter than 2 is reported with "Name must be at least 2 characters"; a longer name is never reported |
| ContactSchema.PhoneBoundary | src/app/schema/contact.ts:5-7 | a 9-character phone number is reported with the phone message; a 10-character one is not reported |
| ContactSchema.RelationshipRule | src/app/schema/contact.ts:8 | only the empty relationship is reported, with "Please select a relationship" |
| ContactSchema.RulesIndependent | src/app/schema/contact.ts:3-9 | whether a field is reported depends on that field's value only |
| Contacts.ParseContactForm | src/server/contacts.ts:32-56 | the parse succeeds exactly when the trimmed, defaulted triple is accepted and returns that triple; otherwise it fails with "Validation failed" and the formatted issues |
| Contacts.Format | src/server/contacts.ts:46 | `error.format()` for the schema's issues; `ContactForm.ServerErrorsOfFormat` states that reading it back gives the client's error map |
| Contacts.NameIsTrimmed | src/server/contacts.ts:35-43 | a submitted name of "  a " fails the name rule |
| Contacts.PhoneReadFromPhoneKey | src/server/contacts.ts:36 | a form without the key "phone" fails the phone rule |
| Contacts.ParsedIsTrimmedTriple | src/server/contacts.ts:35-55 | a successful parse is exactly the trimmed triple, and all three keys were present |
| Contacts.PresentWhenNonEmpty | src/server/contacts.ts:35-37 | a field that reads as non-empty was supplied and reads as its trimmed value |
| Contacts.CreateRejected | src/server/contacts.ts:45-53 | a refused triple makes `createContact` fail with "Validation failed" and the formatted issues |
| Contacts.CreateAccepted | src/server/contacts.ts:58-92 | with an accepted triple, `createContact` succeeds when the insert does not throw, and otherwise fails with the thrown Error's message (or the generic text) and no validation errors |
| Contacts.CreateResultCases | src/server/contacts.ts:58-92 | the three outcomes of `createContact`; it succeeds exactly when the triple is accepted and the insert does not throw |
| Contacts.CreateFailure | src/server/contacts.ts:72-91 | the create action's catch for a value other than the validation error; `CreateAccepted` states when it is returned and that an Error gives its message, anything else "An unexpected error occurred" |
| Contacts.FormField | src/server/contacts.ts:35-37 | a field read from the form; `PresentWhenNonEmpty` states that a non-empty reading was supplied and is its trimmed value |
| Contacts.Submitted | src/server/contacts.ts:35-37 | the triple the server validates; `NameIsTrimmed`, `PhoneReadFromPhoneKey` and `ParsedIsTrimmedTriple` state how it is read |
| Contacts.CreateResult | src/server/contacts.ts:58-92 | the action's answer; `CreateRejected`, `CreateAccepted` and `CreateResultCases` state its cases |
| Contacts.RemoveUniqueId | src/server/contacts.ts:104-108 | deleting an id present once removes exactly one row |
| Contacts.ContactTable.constructor | src/server/contacts.ts:8-15 | a table with unique ids |
| Contacts.ContactTable.CreateContact | src/server/contacts.ts:58-93 | the result is `CreateResult`; on success exactly one row with the validated data is appended, otherwise the table is unchanged; ids stay unique |
| Contacts.ContactTable.Insert | src/server/contacts.ts:62-64 | the insert appends the row, and ids stay unique |
| Contacts.ContactTable.DeleteContact | src/server/contacts.ts:95-130 | an empty id gives "Contact ID is required"; a store error gives its message; a missing row gives the message of the not-found error the store throws, which is a parameter; otherwise exactly the row with that id is removed, in order; in every failure the table is unchanged |
| Contacts.DeleteFailure | src/server/contacts.ts:115-128 | the delete action's catch: an Error gives its message, anything else "An unexpected error occurred while deleting the contact"; `ContactTable.DeleteContact` states when it is returned |
| Contacts.ContactTable.GetAllContacts | src/server/contacts.ts:17-30 | the rows newest first, as a permutation of the table, or "Failed to fetch contacts" when the query throws |
| Contacts.AppendFreshId | src/server/contacts.ts:62-64 | appending a row with a fresh id keeps ids unique |
| Contacts.SublistUnique | src/server/contacts.ts:104-108 | removing rows keeps ids unique |
| VerifyRole.AuthorizedIffElevated | src/app/api/auth/verify-role/route.ts:21-22 | `authorized` holds exactly when the user's role is "admin" or "moderator" |
| VerifyRole.Authorized | src/app/api/auth/verify-role/route.ts:21-22 | the role test; `AuthorizedIffElevated` states it is membership of the role in the elevated roles, and `OrdinaryRolesRefused` that a missing session, a missing role and "user" are refused |
| VerifyRole.OrdinaryRolesRefused | src/app/api/auth/verify-role/route.ts:21-22 | no session, no role, or the role "user" is not authorized |
| VerifyRole.Respond | src/app/api/auth/verify-role/route.ts:5-49 | status 200 exactly when the lookup returns, with no error and no message; `authorized` only for an elevated session; a throw gives 401 with error "Unauthorized" and the Error's message, or "Unknown error" for a thrown non-Error |
| VerifyRole.MissingSessionIs200 | src/app/api/auth/verify-role/route.ts:17-32 | a missing session is a 200 answer with `authorized` false |
| Middleware.NoCookieSignsIn | src/middleware.ts:8-10 | without a session cookie the request goes to `/sign-in`, whatever the path |
| Middleware.NonAdminContinues | src/middleware.ts:12-43 | with a cookie, a path outside `/admin` continues whatever the role check would say |
| Middleware.AdminPrefixExamples | src/middleware.ts:12 | `/admin`, `/admin/x` and `/administrator` are admin paths; `/Admin`, `/adm` and `/x/admin` are not |
| Middleware.MatchedPathsAreAdmin | src/middleware.ts:46-48 | every path the matcher selects takes the admin branch |
| Middleware.AdminOutcomes | src/middleware.ts:26-40 | on an admin path: a non-OK response or a falsy `authorized` goes to `/unauthorized`, a thrown fetch or unparsable body to `/sign-in` |
| Middleware.ContinueIff | src/middleware.ts:4-44 | a request continues exactly when it has a cookie and either is not for the admin area or got an OK answer with `authorized` true |
| Middleware.AdminGate | src/middleware.ts:12-43 | with the real role check, an admin request continues exactly when the session's role is "admin" or "moderator", and otherwise goes to `/unauthorized` |
| Middleware.CheckAgainst | src/middleware.ts:15-36 | the role check the middleware reads, answered by `VerifyRole.Respond` (src/app/api/auth/verify-role/route.ts:5-49); `AdminGate` states what it decides |
| Middleware.Decide | src/middleware.ts:4-44 | the `middleware` function; `NoCookieSignsIn`, `NonAdminContinues`, `AdminOutcomes` and `ContinueIff` state its outcomes |
| Middleware.Gate | src/middleware.ts:4-48 | the middleware as configured: it decides only on the paths the matcher selects; `GateContinueIff` and `GateCookieless` state its outcomes |
| Middleware.GateContinueIff | src/middleware.ts:4-48 | as configured, a request continues exactly when the matcher skips its path, or it has a cookie and an OK role check with a truthy `authorized` |
| Middleware.GateCookieless | src/middleware.ts:8-10 | as configured, a request without a cookie goes to `/sign-in` exactly when the matcher selects its path, and continues otherwise |
| Middleware.GateExamples | src/middleware.ts:46-48 | `/administrator` and `/contacts` pass without a cookie; `/admin/x` goes to `/sign-in` |
| Middleware.HasCookie | src/middleware.ts:5-10 | the session-cookie test; `NoCookieSignsIn` states that without it the request goes to `/sign-in` |
| Middleware.IsAdminPath | src/middleware.ts:12 | the `startsWith("/admin")` test; `AdminPrefixExamples` pins it down on concrete paths |
| Middleware.MatcherSelects | src/middleware.ts:46-48 | the paths `/admin/:path*` selects; `MatchedPathsAreAdmin` states they all take the admin branch and `GateExamples` gives paths on either side |
| Sos.AlertEmbedsLink | src/app/api/sos/route.ts:40 | the alert text contains the maps link and the send time |
| Sos.MapsLink | src/app/api/sos/route.ts:23 | the maps link; `MapsLinkParts` states its layout |
| Sos.MapsLinkParts | src/app/api/sos/route.ts:23 | the link is the maps prefix, the latitude's text, a comma and the longitude's text, and nothing more |
| Sos.AlertMessage | src/app/api/sos/route.ts:40 | the alert text; `AlertEmbedsLink` states that it holds the link and the send time |
| Sos.AlertFor | src/app/api/sos/route.ts:23-40 | the alert for a request; `AlertForEmbeds` states that it holds the request's maps link and the send time |
| Sos.AlertForEmbeds | src/app/api/sos/route.ts:23-40 | the alert for a request contains its maps link and the send time |
| Sos.FanOut | src/app/api/sos/route.ts:42-48 | one send per contact, the i-th to contact i's phone number, all with the same body and sender |
| Sos.FanOutSnoc | src/app/api/sos/route.ts:42-48 | the sends for a list with one more contact end with that contact's send |
| Sos.FanOutPrefix | src/app/api/sos/route.ts:42-48 | the sends for one more contact of the list extend those before it |
| Sos.SmsProvider.constructor | src/app/api/sos/route.ts:5-9 | the outbox starts empty |
| Sos.SmsProvider.Create | src/app/api/sos/route.ts:43-47 | a send request is appended to the outbox and succeeds unless rejected |
| Sos.AnyRejectedStep | src/app/api/sos/route.ts:50 | some send among n + 1 is rejected exactly when one among n is or the last one is |
| Sos.SendAll | src/app/api/sos/route.ts:42-50 | the outbox grows by exactly the fan-out, and the batch succeeds exactly when no send is rejected |
| Sos.Post | src/app/api/sos/route.ts:11-64 | a body that does not decode gives 500; a missing or falsy coordinate gives 400; in both cases nothing is sent; a load failure gives 500; no contacts gives 200 "No emergency contacts found"; otherwise one send per contact, then 500 if any was rejected or 200 with `contactsNotified` equal to the number of contacts |
| Sos.ZeroCoordinateRejected | src/app/api/sos/route.ts:16 | a coordinate of exactly 0 counts as missing |
| Sos.HasCoordinates | src/app/api/sos/route.ts:16 | both coordinates truthy; `ZeroCoordinateRejected` and `Post` state that without them the answer is 400 and nothing is sent |
| Reports.Applied | src/app/api/reports/route.ts:20-23 | a parameter becomes a condition exactly when present and non-empty |
| Reports.BuildWhere | src/app/api/reports/route.ts:20-23 | the filter built from the parameters; `Applied` states which parameters it keeps |
| Reports.Matches | src/app/api/reports/route.ts:20-23 | a row passes the filter; `ListedMatchesFilters` and `NoFiltersListsAll` state what the listing then holds |
| Reports.FindMany | src/app/api/reports/route.ts:25-45 | the matching rows, each as often as stored, newest first |
| Reports.ErrorResponse | src/app/api/reports/route.ts:52-73 | code P1001 gives 503 with its message, P2024 gives 504 with its message, anything else 500 "Failed to fetch reports" |
| Reports.ListReports | src/app/api/reports/route.ts:7-78 | a listing exactly when a session exists and the query completes; every failure status is 401, 500, 503 or 504 |
| Reports.NoSessionUnauthorized | src/app/api/reports/route.ts:12-14 | without a session the answer is 401 "Unauthorized" and does not depend on the store or the query |
| Reports.ListedMatchesFilters | src/app/api/reports/route.ts:17-30 | a listing is newest first, every listed report matches each applied filter, and every stored report that matches is listed |
| Reports.NoFiltersListsAll | src/app/api/reports/route.ts:20-23 | with no filter applied, every stored report is listed as often as it is stored |
| Reports.ErrorCodes | src/app/api/reports/route.ts:46-72 | P1001 gives 503, P2024 gives 504; the timer's code-less rejection and a non-Error value give 500 |
| Reports.LookupThrowCodes | src/app/api/reports/route.ts:46-72 | a throwing session lookup is answered by the same catch as a failed query, whatever the store holds: P1001 gives 503, a non-Error 500 |
| Location.GetLocations | src/app/api/location/route.ts:6-26 | a store error gives 500 "Error fetching reports"; otherwise the reports with both coordinates, all of them, newest first |
| Location.LocatedCounts | src/app/api/location/route.ts:8-16 | a report is listed as often as it is stored when it has both coordinates, and not at all otherwise |
| ReportsMap.ValidReports | src/components/reports-map.tsx:43-46 | exactly the reports with both coordinates non-null, in order, each as often as fetched |
| ReportsMap.MarkedAreValid | src/components/reports-map.tsx:85-86 | every report that gets a marker passed the coordinate filter |
| ReportsMap.ZeroCoordinateUnmarked | src/components/reports-map.tsx:45-86 | a report at latitude or longitude 0 passes the filter but gets no marker |
| ReportsMap.PlacesMarker | src/components/reports-map.tsx:86 | the marker loop's guard; `MarkedAreValid` and `ZeroCoordinateUnmarked` state which reports it lets through |
| ReportsMap.MarkerColors | src/components/reports-map.tsx:172-183 | PENDING, RESOLVED and REJECTED have their own colours, and every other status (IN_PROGRESS, DISMISSED) gets "#3FB1CE" |
| ReportsMap.MarkerColor | src/components/reports-map.tsx:172-183 | `getMarkerColor`; `MarkerColors` states each colour as an iff on the status, and `BadgeMatchesColor` ties it to the badge |
| ReportsMap.StatusBadge | src/components/reports-map.tsx:193-212 | the badge always ends with the fixed class suffix |
| ReportsMap.BadgeClasses | src/components/reports-map.tsx:193-212 | the badge is yellow exactly for PENDING, green exactly for RESOLVED, red exactly for REJECTED, and blue exactly for every other status |
| ReportsMap.BadgeBackground | src/components/reports-map.tsx:193-209 | the background class `getStatusBadge` picks; `BadgeClasses` states each class as an iff on the status |
| ReportsMap.BadgeMatchesColor | src/components/reports-map.tsx:172-212 | two statuses share a badge exactly when they share a marker colour |
| ReportsMap.SuffixCancels | src/components/reports-map.tsx:211 | appending the same suffix keeps different background classes different |
| ReportsMap.BackgroundsDiffer | src/components/reports-map.tsx:172-209 | the four background classes and the four marker colours are pairwise different |
| ReportsMap.LocationLabel | src/components/reports-map.tsx:267 | a null or empty location shows "Unknown location", any other location shows itself |
| ReportsMap.ErrorText | src/components/reports-map.tsx:50-53 | an Error shows its message, any other value "An unknown error occurred" |
| ReportsMap.IncidentsMap.constructor | src/components/reports-map.tsx:29-31 | no reports, loading, no error |
| ReportsMap.IncidentsMap.FetchReports | src/components/reports-map.tsx:33-58 | loading ends in every case; on success the valid reports replace the list and the error clears; otherwise the list is kept and the matching error is shown |
| ReportsMap.IncidentsMap.Mount | src/components/reports-map.tsx:33-67 | without map support the error is shown and nothing is fetched; with it, a network failure shows its message, a non-OK answer shows "Failed to fetch reports", a body that cannot be read as a list shows the thrown value's text, and in these three cases the reports are kept; a successful body replaces the reports by its valid reports and clears the error |
| ReportsMap.MapShowsLocations | src/components/reports-map.tsx:43-46 | the valid reports of the unfiltered listing are the location endpoint's reports, in the same order |
| DisplayContacts.SearchResults | src/components/display-contacts.tsx:93-102 | an empty term gives the initial list; otherwise exactly the matching contacts, as a sublist of the initial list; every matching contact appears as often as in the initial list, every other not at all |
| DisplayContacts.ContainsEmpty | src/components/display-contacts.tsx:97 | every string contains the empty string |
| DisplayContacts.EmptySearchMatchesAll | src/components/display-contacts.tsx:93-102 | the empty-term branch agrees with filtering, since every contact matches the empty term |
| DisplayContacts.SearchCases | src/components/display-contacts.tsx:96-97 | a contact matched by its name matches both the term and its lower-cased form |
| DisplayContacts.NameMatchIgnoresCase | src/components/display-contacts.tsx:96 | two terms that lower to the same text match the same names |
| DisplayContacts.SearchMatches | src/components/display-contacts.tsx:96-97 | the search test; `SearchCases` and `NameMatchIgnoresCase` state its name half and `EmptySearchMatchesAll` for the empty term |
| DisplayContacts.FilterResults | src/components/display-contacts.tsx:111-118 | an empty choice gives the initial list; otherwise exactly the contacts with that relationship, as a sublist, each as often as in the initial list, every other not at all |
| DisplayContacts.AfterDelete | src/components/display-contacts.tsx:126 | the list after a delete is every other contact, in order, each as often as before, and no contact with that id |
| DisplayContacts.Relationships | src/components/display-contacts.tsx:135 | the relationships of the contacts, position by position |
| DisplayContacts.RelationshipOptions | src/components/display-contacts.tsx:134-136 | the distinct non-empty relationships, without duplicates, in first-occurrence order |
| DisplayContacts.OptionsComeFromContacts | src/components/display-contacts.tsx:134-136 | every offered relationship is some contact's |
| DisplayContacts.ContactList.constructor | src/components/display-contacts.tsx:79-82 | the initial contacts shown, empty search and filter |
| DisplayContacts.ContactList.InitialContactsChanged | src/components/display-contacts.tsx:84-86 | new contacts are shown as given |
| DisplayContacts.ContactList.HandleSearch | src/components/display-contacts.tsx:88-104 | the search results over the initial contacts are shown, whatever was shown before |
| DisplayContacts.ContactList.HandleFilter | src/components/display-contacts.tsx:106-120 | the filter results over the initial contacts are shown, discarding any search |
| DisplayContacts.ContactList.HandleDelete | src/components/display-contacts.tsx:122-132 | without confirmation nothing happens; a successful delete removes that id from the list and the table and says so; a failed one, including the store's not-found error passed in as `missing`, changes nothing and shows the failure; a call that itself throws changes nothing and shows nothing |
| ContactForm.FieldKeyInjective | src/components/contact-form.tsx:42-46 | different fields have different keys, and none is "_errors" |
| ContactForm.IssueErrorsDomain | src/components/contact-form.tsx:95-100 | the error map has a key exactly for each reported field |
| ContactForm.IssueErrorsValue | src/components/contact-form.tsx:95-100 | with issues on distinct fields, each field's key holds that issue's message |
| ContactForm.IssueErrorsKeys | src/components/contact-form.tsx:95-100 | every key of the error map is a field name |
| ContactForm.IssueErrors | src/components/contact-form.tsx:95-100 | the client's error map; `IssueErrorsDomain`, `IssueErrorsValue` and `IssueErrorsKeys` state its keys and messages |
| ContactForm.ValidationErrorsMeaning | src/components/contact-form.tsx:88-104 | the client error map has a key exactly for each failing rule, holding that rule's message, and no other key |
| ContactForm.ErrorsFor | src/components/contact-form.tsx:95-100 | for issues on distinct fields, a field's key is present exactly when it is reported and holds its message |
| ContactForm.ServerErrorsOfFormat | src/components/contact-form.tsx:128-142 | the server's formatted errors, read back on the client, give the client's own error map |
| ContactForm.ServerErrors | src/components/contact-form.tsx:129-141 | the map read back from the server's formatted errors; `ServerErrorsOfFormat` states that it gives the client's map for the same issues |
| ContactForm.Payload | src/components/contact-form.tsx:114-117 | the payload has "name", "phone" and "relationship", and no "phoneNumber" |
| ContactForm.PayloadRoundTrip | src/components/contact-form.tsx:114-117 | the server reads the trimmed triple back, and exactly the triple when it has no surrounding whitespace |
| ContactForm.NewRow | src/server/contacts.ts:58-64 | the row a successful submission stores; `NewRowContents` states its fields |
| ContactForm.NewRowContents | src/server/contacts.ts:58-64 | the stored row holds the form's three fields trimmed, the store's id and the submission time as both timestamps |
| ContactForm.ClientAcceptsUntrimmedName | src/components/contact-form.tsx:88-117 | the name " a " passes the client's name rule but the server refuses the submission |
| ContactForm.ContactFormState.constructor | src/components/contact-form.tsx:50-56 | empty triple, no errors, no contacts |
| ContactForm.ContactFormState.LoadContacts | src/components/contact-form.tsx:59-71 | the contacts newest first, or "Failed to load contacts" with the list kept |
| ContactForm.ContactFormState.HandleChange | src/components/contact-form.tsx:73-79 | only the edited field changes; its error is cleared only if one was shown |
| ContactForm.ContactFormState.HandleRelationshipChange | src/components/contact-form.tsx:81-86 | only the relationship changes, and only its error is cleared |
| ContactForm.ContactFormState.ValidateForm | src/components/contact-form.tsx:88-105 | true with no errors exactly when the schema accepts the untrimmed triple; otherwise the error map of its issues |
| ContactForm.ContactFormState.SubmitContact | src/components/contact-form.tsx:107-153 | an invalid form shows the fix-errors toast with its field messages and never calls the action; otherwise `SendOutcome`, in which success appends exactly the trimmed triple under the new id and time |
| ContactForm.ContactFormState.Send | src/components/contact-form.tsx:114-152 | a failing call shows "An unexpected error occurred" and changes nothing; otherwise `SendOutcome` of the create action's answer, with the stored row `NewRow` of the form, the new id and the time |
| ContactForm.ContactFormState.HandleResult | src/components/contact-form.tsx:122-151 | success: toast, form reset, list reloaded, the table holding the added row; server validation errors: mapped onto the fields; other failures: the action's message or "Failed to add contact" |
| ContactForm.SendOutcome | src/components/contact-form.tsx:114-152 | the outcome of sending a valid form: a failing call changes nothing but shows "An unexpected error occurred"; success appends exactly the new row, resets the form and reloads the list newest first (or keeps it with an error toast); a server rejection shows its field messages; any other failure shows its error |
| ContactForm.FormatIssues | src/components/contact-form.tsx:95-100 | the `forEach` builds the error map of the issues |
| ContactForm.BuildServerErrors | src/components/contact-form.tsx:129-141 | the `forEach` builds the server error map: `_errors` skipped, each field's first message |
| ContactForm.ServerRejectionShowsRuleMessages | src/components/contact-form.tsx:128-143 | a server-side validation failure shows, under each field, the message of the rule it fails on the triple the server read |

## Left out

- Prisma, Twilio and better-auth are not modelled. The store is a sequence of rows, the SMS provider an outbox, and the session lookup an input value. Whether each call throws is a parameter.
- `Promise.all` and `Promise.race` are not modelled as concurrency. The sends are issued one after another, and any rejection fails the batch. The 15-second timer is only a rejection without a code.
- Locale formatting (`toLocaleString`, `formatDate`) is not modelled. The send time is an opaque string, and so is the rendering of a number in the maps link.
- Coordinates are reals. Only their comparison with 0 and null is modelled; NaN and floating-point rendering are not.
- `Js.ToLower`: lowers only the ASCII letters; full Unicode case mapping (e.g. "É" → "é", "İ" → two code units) is out of scope.
- `Format`: zod's `error.format()` is modelled for issues on distinct fields. The schema never produces two issues on one field, and the nesting of deeper paths does not arise here.
- `ContactForm.HandleChange`: setting an error to `undefined` is modelled as removing the key. Every reader of the map treats both the same.
- `Queries.SortDesc`: rows with equal `createdAt` keep their stored order. The database does not promise any tie order.
- `Queries.FilterSortCommute`: that filtering and sorting give the same sequence in either order rests on the stored-order tie-break, so it promises more than the database does. Under any tie order only the weaker fact would hold: both are newest first and hold the same rows.
- `ReportsMap.MapShowsLocations`: the map showing the same sequence as `Location.GetLocations` rests on the same tie-break, so it too promises more than the database does. Under any tie order only the weaker fact would hold: both are newest first and hold the same reports.
- `Contacts.CreateFailure`: store error messages are taken never to be JSON text. The action applies `JSON.parse` to every Error's message (src/server/contacts.ts:72-85); a message that parses is not modelled.
- `Contacts.ContactTable.DeleteContact`: the store's not-found error is a parameter, `missing`. Its text and code belong to Prisma.
- The status and type query parameters are plain strings here. The route casts them to the store's enumerations without checking; how the store treats a value outside them is not modelled.
- `revalidatePath`, React `cache`, the `finally` disconnect on Vercel, and console logging have no effect on the modelled results.
- `Sos.Post`: the JSON body is modelled as its two properties as decoded scalars. Objects and arrays in those properties are not modelled.
- Map rendering, the popups, bounds fitting and the DOM construction of the marker loop are left out. Only the loop's guard on truthy coordinates is modelled.
- `Sos.MapsLink`, `Sos.AlertMessage` and `Sos.AlertFor` have no contract of their own. They are the templates themselves; `Sos.MapsLinkParts`, `Sos.AlertEmbedsLink` and `Sos.AlertForEmbeds` state what they hold.
- `ReportsMap.MarkerColor` and `ReportsMap.BadgeBackground` are specified by the lemmas `MarkerColors` and `BadgeClasses`.
- `Reports.ErrorResponse`: two edges of the catch are not modelled. A thrown `null` or `undefined` makes reading `error.code` throw inside the catch, so the handler rejects instead of answering 500. A non-Error object carrying `code: "P1001"` or `"P2024"` gets 503 or 504 in the code, but the model's non-Error value has no code and gets 500. Neither arises from the database client or the authentication library.
- `DisplayContacts.ContactList.HandleDelete` filters the list currently shown and leaves `initialContacts` as it was. A later search or filter therefore brings a deleted contact back, as the component does.
