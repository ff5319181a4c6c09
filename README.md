# Worker marketplace front end: API client, filters and page state machines

This project models the front end of a marketplace where customers post service
requests, browse and review professionals ("workers"), and administrators moderate
workers and contacts. Four parts of it are modelled:

- **The HTTP client** (`api.dfy`). This covers:
  - `API_CONFIG`: the base URL chosen by environment, the 10 000 ms timeout and the JSON default headers;
  - the `ENDPOINTS` path builders;
  - `APIClient`.

  `APIClient` is a class that holds the *same* header object as `API_CONFIG`, so a bearer token it sets is seen by the configuration and by every client built from it later. Its `request` is modelled as two results: the `fetch` call it would issue (URL, verb, merged headers, body, timeout) and the way its promise settles given the response the network returned.
- **The list filters**. This covers the worker search page (`search_workers.dfy`), the admin worker table (`view_workers.dfy`) and the service catalogue (`services.dfy`). All three are built on one generic `Filter` (`seqs.dfy`). That filter is proved to return an order-preserving sub-sequence that holds exactly the matching elements, each with its original multiplicity. Case-insensitive `includes` comes from `text.dfy`.
- **The page state machines**, each a class whose methods are the event handlers:
  - proposal acceptance on the request review page (`request_review.dfy`);
  - the feedback form with its star rating (`feedback.dfy`);
  - the request edit form with its status options and its update/delete flow (`request_edit.dfy`);
  - the contact form (`contact.dfy`).

  Each form's submit button is modelled together with the browser's constraint validation: the form's submit handler runs only when every input marked `required` is non-empty. On the contact form it also needs the `type="email"` input to hold a valid e-mail address as the HTML Living Standard defines it (section 4.10.5.1.5, `html_email.dfy`).
- **The admin panel's colour mappings** (`admin_panel.dfy`): severity to text/background class, the dot colour derived by string replacement, and change-type colour.

Shared pieces:
- `common.dfy`: `Option`, `Result` and the toast record.
- `numbers.dfy`: decimal `toString` and `parseInt`. The feedback form stores the clicked star count as a string and parses it back to light the stars, and these two functions model that round trip.

## Model

| member | source | states |
|---|---|---|
| Api.BaseUrl | src/backend/config/api.ts:6-8 | the production URL exactly when `NODE_ENV` is production, the localhost URL exactly otherwise |
| Api.Wrap | src/backend/config/api.ts:34-65 | a templated path is the prefix, the id verbatim, then the suffix; each part can be read back from its position |
| Api.EndpointBuildersInjective | src/backend/config/api.ts:34-65 | each of the ten id-taking endpoint builders maps different ids to different paths |
| Api.WorkerPathsCanCollide | src/backend/config/api.ts:44-45 | the worker-by-id path of `x + "/reviews"` equals the worker-reviews path of `x`, so ids are not escaped |
| Api.StaticEndpointsDistinct | src/backend/config/api.ts:21-67 | the sixteen fixed endpoint paths are pairwise different |
| Api.IdsCanShadowFixedPaths | src/backend/config/api.ts:34-46 | worker ids "register" and "search" give the fixed register and search paths, and request id `"user/" + u` gives the user-requests path of `u` |
| Api.MergeHeaders | src/backend/config/api.ts:102-106 | the merged headers hold every key of both maps; a per-call header wins, other keys keep the default value |
| Api.MergeHeadersLaws | src/backend/config/api.ts:102-106 | merging with no per-call headers keeps the defaults, and merging twice with the same overrides changes nothing more |
| Api.WithToken | src/backend/config/api.ts:82-84 | the Authorization header becomes `Bearer <token>` and every other header is kept |
| Api.WithoutToken | src/backend/config/api.ts:87-89 | the Authorization header is gone and every other header is kept |
| Api.TokenLaws | src/backend/config/api.ts:82-89 | removing after setting equals removing; setting twice keeps only the last token; removing is idempotent |
| Api.Truthy | src/backend/config/api.ts:108 | `data` is falsy exactly when it is undefined, null, false, 0 or the empty string |
| Api.BuildFetch | src/backend/config/api.ts:92-113 | the call goes to base URL + endpoint; the verb defaults to GET; headers are merged with per-call precedence; a body is sent exactly when the data is truthy and the verb is POST or PUT; the configured timeout is used |
| Api.Classify | src/backend/config/api.ts:111-124 | a rejected fetch fails with its reason; a status outside 200-299 fails with an HTTP error; a 2xx response whose body is not JSON fails with a parse error; only a 2xx response with a JSON body succeeds, with the parsed value |
| Api.IsOk | src/backend/config/api.ts:115 | `response.ok` holds exactly for the 2xx status codes |
| Api.HttpErrorCarriesStatus | src/backend/config/api.ts:115-117 | the HTTP error message starts with "HTTP " followed by the status in decimal, which parses back to the status |
| Api.ApiConfig.constructor | src/backend/config/api.ts:4-18 | base URL by environment, timeout 10000 ms, a fresh header object holding the two JSON headers |
| Api.HeaderMap.constructor | src/backend/config/api.ts:14-17 | the shared `HEADERS` object starts with the given entries |
| Api.APIClient.constructor | src/backend/config/api.ts:75-79 | the client copies base URL and timeout and shares the configuration's header object |
| Api.APIClient.SetAuthToken | src/backend/config/api.ts:82-84 | the shared header object now holds `Authorization: Bearer <token>` and is otherwise unchanged |
| Api.APIClient.RemoveAuthToken | src/backend/config/api.ts:87-89 | the shared header object loses its Authorization entry and is otherwise unchanged |
| Api.APIClient.Request | src/backend/config/api.ts:92-125 | issues exactly the call `BuildFetch` describes for the current headers and settles as `Classify` says |
| Api.APIClient.Get | src/backend/config/api.ts:128-130 | a GET with no body to base URL + endpoint, with merged headers and the client's timeout |
| Api.APIClient.Post | src/backend/config/api.ts:132-134 | a POST to base URL + endpoint, with merged headers and the client's timeout, whose body is the data exactly when the data is truthy |
| Api.APIClient.Put | src/backend/config/api.ts:136-138 | a PUT to base URL + endpoint, with merged headers and the client's timeout, whose body is the data exactly when the data is truthy |
| Api.APIClient.Delete | src/backend/config/api.ts:140-142 | a DELETE with no body to base URL + endpoint, with merged headers and the client's timeout |
| Api.TokenReachesSharedConfig | src/backend/config/api.ts:75-146 | after the singleton sets a token, the configuration's headers and those of any client built later hold that token |
| Seqs.Filter | src/pages/SearchWorkers.tsx:92-100 | `Array.filter`: the result is a sub-sequence of the input in input order; it holds exactly the elements that pass, each as often as in the input |
| Seqs.FilterKeepsAll | src/pages/Services.tsx:86-89 | when every element passes, the filter returns the list unchanged |
| Seqs.FilterCongruent | src/pages/SearchWorkers.tsx:92-100 | two predicates that agree on every element give the same filtered list |
| Seqs.FindIndex | src/pages/RequestEdit.tsx:138 | `Array.find`: the index of the first passing element, or none exactly when no element passes |
| Seqs.Find | src/pages/RequestEdit.tsx:138 | `Array.find`: the first element that passes, or none exactly when no element passes |
| Text.ToLower | src/pages/SearchWorkers.tsx:93-95 | `toLowerCase` keeps the length, turns each upper-case ASCII letter into its lower-case partner and keeps every other character |
| Text.ToLowerIdempotent | src/pages/SearchWorkers.tsx:93-95 | lower-casing twice equals lower-casing once |
| Text.ToLowerFixesExactlyLowerCase | src/pages/Feedback.tsx:155 | lower-casing leaves a string unchanged exactly when it is already lower-case |
| Text.ToLowerEqualIff | src/pages/SearchWorkers.tsx:93-95 | two strings lower-case to the same string exactly when they agree up to the case of ASCII letters |
| Text.Contains | src/pages/SearchWorkers.tsx:93-95 | `includes`: the term occurs at some index, so it is no longer than the text |
| Text.ContainsSplit | src/pages/SearchWorkers.tsx:93-95 | a text that includes the term is some prefix, the term, then some suffix |
| Text.ContainsOfSplit | src/pages/SearchWorkers.tsx:93-95 | conversely, a prefix, the term and a suffix always include the term |
| Text.EmptyIsIncluded | src/pages/SearchWorkers.tsx:93-95 | every string includes the empty string, so an empty search term matches |
| Text.ReplaceFirst | src/pages/admin/AdminPanel.tsx:260 | `replace` with a string pattern: a pattern at the start is replaced there |
| Text.ReplaceFirstAbsent | src/pages/admin/AdminPanel.tsx:260 | without an occurrence of the pattern the string is unchanged |
| Text.ReplaceFirstLeftmost | src/pages/admin/AdminPanel.tsx:260 | with an occurrence, exactly the leftmost one is replaced and the rest of the string is kept |
| Numbers.NatToString | src/pages/Feedback.tsx:56 | `toString` of a count is a non-empty run of digits with no leading zero |
| Numbers.ParseInt | src/pages/Feedback.tsx:62 | `parseInt`: blank text and text starting with neither a blank, a sign nor a digit give NaN; a plain run of digits gives its decimal value |
| Numbers.DigitsValueOfNatToString | src/pages/Feedback.tsx:56 | the digits written for `n` have decimal value `n` |
| Numbers.ParseIntOfNatToString | src/pages/Feedback.tsx:62 | `parseInt` of `n.toString()`, followed by anything that does not start with a digit, gives back `n` |
| Numbers.ParseIntOfEmpty | src/pages/Feedback.tsx:62 | `parseInt("")` is NaN, which the page turns into 0 |
| SearchWorkers.FilteredWorkers | src/pages/SearchWorkers.tsx:92-100 | the shown workers are, in input order, exactly the workers whose name, category or one of whose specialties includes the term ignoring case, and whose category and location equal the dropdown choice unless that choice is empty; each shown worker appears as often as in the input |
| SearchWorkers.EmptyFiltersKeepAll | src/pages/SearchWorkers.tsx:21-24 | with the initial state (empty term, category and location) every worker is shown, whatever the sort choice |
| SearchWorkers.SortByIsIgnored | src/pages/SearchWorkers.tsx:92-100 | the sort choice has no effect on the shown workers |
| SearchWorkers.SearchIgnoresTermCase | src/pages/SearchWorkers.tsx:93-95 | two search terms that agree up to letter case show the same workers |
| ViewWorkers.FilteredWorkers | src/pages/admin/ViewWorkers.tsx:109-117 | the listed workers are, in input order, exactly those whose name, email or category includes the term ignoring case, and whose status and category equal the filter unless that filter is empty; each appears as often as in the input |
| ViewWorkers.EmptyFiltersKeepAll | src/pages/admin/ViewWorkers.tsx:109-117 | with the initial filters every worker is listed |
| ViewWorkers.StatusBadge | src/pages/admin/ViewWorkers.tsx:89-100 | verified gets the green CheckCircle "Verified" badge, pending the yellow AlertTriangle "Pending" badge and suspended the red XCircle "Suspended" badge; every other status gets the secondary badge with no icon, captioned with the status itself |
| ViewWorkers.KnownBadgesDistinct | src/pages/admin/ViewWorkers.tsx:89-100 | the three known statuses get three different badges, all of the default variant |
| ViewWorkers.OfferedActions | src/pages/admin/ViewWorkers.tsx:290-337 | View and the four menu actions are always offered; Approve and Reject exactly for pending workers; Reactivate exactly for suspended ones |
| ViewWorkers.ActionStatus | src/pages/admin/ViewWorkers.tsx:296-333 | every control but View calls the status handler; Approve passes the same "verify" as the menu's Verify item, and no other control does |
| ViewWorkers.ActionStatusesAreNotBadgeStatuses | src/pages/admin/ViewWorkers.tsx:89-333 | the strings the controls pass are verbs, none of them a status the badge knows, so they would all get the fallback badge |
| ViewWorkers.HandleStatusChange | src/pages/admin/ViewWorkers.tsx:102-107 | the worker list is left unchanged (the id is never used); the toast is "Status Updated" and its text is exactly "Worker status has been changed to ", the new status, then "." |
| Services.FeaturedServices | src/pages/Services.tsx:84 | the featured services, in catalogue order, are exactly those flagged featured, each as often as in the catalogue |
| Services.FilteredServices | src/pages/Services.tsx:86-89 | the shown services are, in order, exactly those whose title or description includes the term ignoring case, each as often as in the catalogue |
| Services.EmptySearchKeepsAll | src/pages/Services.tsx:86-89 | an empty search shows the whole catalogue |
| RequestReview.Card | src/pages/RequestReview.tsx:186-262 | a proposal card is highlighted and shows the Accepted badge exactly when it is the selected proposal; its accept button is enabled exactly when nothing is selected |
| RequestReview.AtMostOneAcceptedCard | src/pages/RequestReview.tsx:239-262 | among distinct proposal ids at most one card shows the Accepted badge |
| RequestReview.ProposalReview.constructor | src/pages/RequestReview.tsx:23 | no proposal is selected at first |
| RequestReview.ProposalReview.HandleAcceptProposal | src/pages/RequestReview.tsx:85-91 | the proposal becomes the selected one and the "Proposal Accepted!" toast is shown |
| RequestReview.ProposalReview.PressAccept | src/pages/RequestReview.tsx:256-262 | the click accepts only when nothing is selected yet; afterwards the selection is the first accepted proposal and no second proposal is ever accepted |
| RequestReview.ProposalReview.HandleContactWorker | src/pages/RequestReview.tsx:93-98 | the toast names the worker and the contact method; the selection is unchanged |
| RequestReview.AcceptTwice | src/pages/RequestReview.tsx:256-262 | accepting one proposal and then pressing another leaves the first one selected and refuses the second |
| Feedback.WithField | src/pages/Feedback.tsx:48-53 | the named field takes the new value and every other field keeps its value |
| Feedback.StarThreshold | src/pages/Feedback.tsx:62 | `hoveredStar \|\| parseInt(rating) \|\| 0`: the hovered star wins; with no hover, a rating written by clicking star k counts as k and an empty rating as 0 |
| Feedback.Stars | src/pages/Feedback.tsx:59-76 | five stars; star i is lit exactly when i is at most the hovered star, or, with no hover, the parsed rating |
| Feedback.ActiveStarsArePrefix | src/pages/Feedback.tsx:62 | the lit stars are always a prefix of the row |
| Feedback.ClickedRatingLightsStars | src/pages/Feedback.tsx:55-62 | after clicking star k with no hover, exactly the first k stars are lit |
| Feedback.HoverOverridesRating | src/pages/Feedback.tsx:62-71 | while star h is hovered exactly the first h stars are lit, whatever the stored rating |
| Feedback.NoRatingNoStars | src/pages/Feedback.tsx:62 | with an empty rating and no hover, no star is lit |
| Feedback.FeedbackForm.constructor | src/pages/Feedback.tsx:13-22 | empty form, no hover, not loading |
| Feedback.FeedbackForm.SubmitDisabled | src/pages/Feedback.tsx:220 | the button is disabled while loading or with no rating, and enabled by any rating that parses as a number when not loading |
| Feedback.FeedbackForm.HandleInputChange | src/pages/Feedback.tsx:48-53 | for the name, title and review inputs it is bound to, exactly the named field takes the typed value |
| Feedback.FeedbackForm.SelectServiceCategory | src/pages/Feedback.tsx:150-155 | the category is stored lower-cased |
| Feedback.FeedbackForm.SelectWouldRecommend | src/pages/Feedback.tsx:204 | the recommendation field takes the chosen value |
| Feedback.FeedbackForm.HandleStarClick | src/pages/Feedback.tsx:55-57 | the rating becomes the clicked star count as a decimal string; the submit button is then enabled unless loading, and with no hover exactly the first k stars are lit |
| Feedback.FeedbackForm.StarEnter | src/pages/Feedback.tsx:70 | the hovered star becomes the entered star |
| Feedback.FeedbackForm.StarLeave | src/pages/Feedback.tsx:71 | the hover is cleared |
| Feedback.FeedbackForm.HandleSubmit | src/pages/Feedback.tsx:25-27 | submission starts loading and keeps the form |
| Feedback.FeedbackForm.PressSubmit | src/pages/Feedback.tsx:134-220 | the form is submitted exactly when the button is enabled (not loading, rating set) and the required name, title and review are non-empty; only then does loading start |
| Feedback.FeedbackForm.SubmitCompleted | src/pages/Feedback.tsx:30-45 | the success toast is shown, the form is cleared and loading stops |
| RequestEdit.WithField | src/pages/RequestEdit.tsx:100-105 | the named field takes the new value and every other field keeps its value |
| RequestEdit.StatusOptionFor | src/pages/RequestEdit.tsx:138 | a status has an option exactly when it is open, in-progress, completed or cancelled, and then it is the entry with that value |
| RequestEdit.BadgeClass | src/pages/RequestEdit.tsx:138 | open, in-progress, completed and cancelled give green, blue, gray and red white-text badges; any other status gives "undefined text-white" |
| RequestEdit.BadgeCaption | src/pages/RequestEdit.tsx:139 | the four statuses are captioned Open, In Progress, Completed and Cancelled; any other status has no caption |
| RequestEdit.StatusOptionValuesDistinct | src/pages/RequestEdit.tsx:62-67 | the four status options have distinct values |
| RequestEdit.InitialBadgeIsOpen | src/pages/RequestEdit.tsx:15-25 | the initial status "open", which the loaded request keeps, shows the green "Open" badge |
| RequestEdit.RequestEditor.constructor | src/pages/RequestEdit.tsx:15-25 | the initial request data, not loading |
| RequestEdit.RequestEditor.LoadRequest | src/pages/RequestEdit.tsx:29-42 | the form is replaced by the loaded request |
| RequestEdit.RequestEditor.HandleInputChange | src/pages/RequestEdit.tsx:100-105 | for the title, description, location, budget and timeline inputs it is bound to, exactly the named field takes the typed value |
| RequestEdit.RequestEditor.SelectStatus | src/pages/RequestEdit.tsx:167 | the status field takes the chosen value |
| RequestEdit.RequestEditor.SelectServiceCategory | src/pages/RequestEdit.tsx:195-201 | the category is stored lower-cased |
| RequestEdit.RequestEditor.SelectUrgency | src/pages/RequestEdit.tsx:273 | the urgency field takes the chosen value |
| RequestEdit.RequestEditor.PressUpdate | src/pages/RequestEdit.tsx:164-292 | the update starts exactly when not loading and the required title, description and location are non-empty; the form is kept |
| RequestEdit.RequestEditor.PressDelete | src/pages/RequestEdit.tsx:83-98 | a delete starts only when not loading and the user confirmed; the form is kept |
| RequestEdit.RequestEditor.UpdateCompleted | src/pages/RequestEdit.tsx:74-80 | the "Request Updated!" toast is shown, loading stops and the form is kept |
| RequestEdit.RequestEditor.DeleteCompleted | src/pages/RequestEdit.tsx:88-96 | the destructive "Request Deleted" toast is shown, loading stops and the form is kept |
| Contact.WithField | src/pages/Contact.tsx:30-35 | the named field takes the new value and every other field keeps its value |
| Contact.ContactForm.constructor | src/pages/Contact.tsx:12-17 | all four fields empty |
| Contact.ContactForm.HandleInputChange | src/pages/Contact.tsx:30-35 | exactly the named field takes the typed value |
| Contact.ContactForm.HandleSubmit | src/pages/Contact.tsx:20-28 | the submit handler shows the "Message Sent!" toast and clears every field |
| Contact.ContactForm.PressSend | src/pages/Contact.tsx:111-160 | the handler runs exactly when all four required fields are non-empty and the email is a valid address; otherwise nothing changes and no toast is shown |
| Contact.SecondSendIsRefused | src/pages/Contact.tsx:111-160 | after filling the form and sending, the first press sends exactly when the browser accepts the fields, and a second press is always refused |
| HtmlEmail.ValidEmailSplits | src/pages/Contact.tsx:129 | a valid address is a non-empty local part, a single "@" and a domain of labels |
| HtmlEmail.JoinedAddressIsValid | src/pages/Contact.tsx:129 | conversely, any local part, "@" and domain make a valid address |
| HtmlEmail.NoLocalPartIsInvalid | src/pages/Contact.tsx:129 | an address starting with "@" is refused |
| HtmlEmail.NoDomainIsInvalid | src/pages/Contact.tsx:129 | an address ending with "@" is refused |
| AdminPanel.SeverityHue | src/pages/admin/AdminPanel.tsx:108-124 | success is green, warning is yellow, error is red, and every other severity (info included) is blue; each hue comes from exactly one case |
| AdminPanel.SeverityColor | src/pages/admin/AdminPanel.tsx:108-115 | the text class is `text-<hue>-600` for the severity's hue |
| AdminPanel.SeverityBg | src/pages/admin/AdminPanel.tsx:117-124 | the background class is `bg-<hue>-100` for the same hue |
| AdminPanel.DotClass | src/pages/admin/AdminPanel.tsx:260 | replacing "text-" by "bg-" in the text class gives `bg-<hue>-600`, a background of the same hue |
| AdminPanel.ChangeColor | src/pages/admin/AdminPanel.tsx:174 | "positive" changes are green, every other change type is red |

## Left out

- `fetch`, `AbortSignal.timeout` and `response.json()` are not performed. The response is a parameter carrying the parsed body, or nothing when the body is not JSON, and the timeout appears only as the value passed with the call. An abort from the timeout is one more `Rejected` reason. The text of the `SyntaxError` that `response.json()` rejects with is not modelled: it is one `ParseError` value.
- `console.error` on failure and the rethrow are left out: the failure is returned as a `Failure` value.
- `JSON.stringify` of the request body is left out: the call carries the data value itself.
- `process.env.NODE_ENV` is a boolean parameter.
- JavaScript numbers are unbounded integers in `JsValue`. Floating point, `NaN` and `-0` are not modelled, and neither is `0` vs `NaN` truthiness beyond integers.
- Numbers.ParseInt: reads optional sign and decimal digits after ASCII whitespace. Radix prefixes (`0x`), Unicode whitespace and numbers too large for a double are not modelled.
- Text.ToLower: lower-cases ASCII letters only; Unicode case mapping is not modelled.
- The auth, services, workers and admin API modules, and the Request, Login, AdminLogin, worker and remaining admin pages, are not part of this model. Neither are the routing in App.tsx and the static pages.
- Mock data arrays (workers, proposals, services, statistics) are not reproduced; the filters are proved for every list.
- The `setTimeout` delays that simulate the server are collapsed: each page has a `*Completed` method for the moment the timer fires.
- `window.confirm` is a boolean parameter of `PressDelete`.
- Text.ReplaceFirst: inserts the replacement verbatim; the `$&`, `$$`, `` $` `` and `$'` patterns that JavaScript expands in a replacement string are not modelled (the page's only replacement, "bg-", has none).
- The browser's value sanitization of the email input (removing line breaks and leading or trailing white space) is not modelled; the form holds what the change event reports. Other constraint-validation messages and focus behaviour are not modelled either.
- React batching of state updates is not modelled; each handler updates the state at once.
- Input change handlers use a computed property key. Only the form's own field names are modelled, so an input named after no field (which would add a new key) is left out.
- Markup, icons, ratings and prices shown on the cards are left out, apart from the class names and captions listed in the table.
- The request statuses follow the edit page's `statusOptions` (open, in-progress, completed, cancelled), not the wider list of request states described for the back end.
