# Event planner client data layer, in Dafny

This project models the client side of a React event planner that talks to a
JSON REST server. It covers five parts of the client:

- **The shared data provider** (`DataProvider`). It keeps a local mirror of
  the server's `events` and `categories`, with `loading` and `err` flags. It
  has one request helper, `fetchJson`, and the mutations `addEvent`,
  `updateEvent` and `removeEvent`. From the categories it derives
  `categoryMap`, which maps a category id to a display name.
- **The events overview** (`EventsPage`). It keeps its own copy of both
  collections and loads them together. Its `filteredEvents` view applies a
  case-insensitive title search and a category selection that matches any
  selected category. It also has the "add event" form (`AddEventModal`).
- **The event detail page** (`EventPage`). It loads one event and the
  categories, and resolves the event's category names. It also has the
  "edit event" form (`EditEventModal`), which sends a full-record `PUT`.
- **The event card** (`EventCard`). It shows the names of an event's
  categories through `categoryMap`.
- **The newsletter signup form** (`NewsletterPage`). It has a validator, and
  a submit handler that changes the form's state.

The provider and the card are modelled as written. However, `App.jsx` and
`main.jsx` neither mount `DataProvider` nor render `EventCard`, so neither
is reached from the running application; each page loads its own data.

The JavaScript values the code depends on are modelled explicitly:

- **Record ids** (`Values.Key`) are either numbers or strings. `1` and `"1"`
  differ under `===` and `Map` lookups, and they differ in the model too.
- **`String(id)` and `Number(text)`** are written out as decimal conversions
  of integers, including trimming, the empty string and a sign. Numeric ids
  are integers here (see "Left out").
- **`trim()` and `\s`** use the exact ECMAScript white-space set.
- **`toLowerCase()`** lowers ASCII letters only.

Every `async` handler is split at its `await` into two methods:

- `Begin...` makes the state changes before the request.
- `Settle...` makes the state changes once the request has settled.

What the network returned is a parameter of type `Http.Outcome`. It is
either a received response or a rejection. A received response has a
status, a status text, and a body that either parses as JSON or fails to.

One state class models each component whose state the code updates:

- `DataContext.Store`
- `EventsPage.Page` and `EventsPage.AddForm`
- `EventPage.Page` and `EventPage.EditForm`
- `Newsletter.Form`

Each modelled React state variable is a field, and each setter call is an
assignment. The dialog flags (`showAdd`, `showEdit`, `showDelete`,
`deleting`) and the registration form's state are not modelled (see "Left
out"). The derived values (`filteredEvents`, `categoryMap`,
`categoryNames`, the card's names, `validate`) are functions. Their lemmas
state the properties the page relies on.

Modules:

| file | module | contents |
|---|---|---|
| `values.dfy` | `Values` | `Option`, `Result`, `Error`, `Key`, `JsNumber`, `String`/`Number` conversions |
| `text.dfy` | `Text` | `trim`, white space, `toLowerCase`, `includes` |
| `seqs.dfy` | `Seqs` | `filter` and `flatMap` on sequences and their laws |
| `records.dfy` | `Records` | `Event` and `Category` records |
| `http.dfy` | `Http` | responses, `res.ok`, the pages' read-and-check helpers |
| `selection.dfy` | `Selection` | the checkbox toggle shared by both forms and the filter |
| `data_context.dfy` | `DataContext` | the provider |
| `event_card.dfy` | `EventCard` | the card's category names |
| `events_page.dfy` | `EventsPage` | the overview, its filter and the add form |
| `event_page.dfy` | `EventPage` | the detail page, its names and the edit form |
| `newsletter.dfy` | `Newsletter` | the validator and the signup form |

## Model

| member | source | states |
|---|---|---|
| DataContext.FetchJson | src/context/DataContext.jsx:12-20 | A rejected request is its own error, and a success needs a received 2xx response. |
| DataContext.RefreshResult | src/context/DataContext.jsx:26-29 | The pair loads exactly when both `fetchJson` calls succeed. An events failure is the error reported. |
| DataContext.ReplaceById | src/context/DataContext.jsx:53 | The list keeps its length. |
| DataContext.RemoveById | src/context/DataContext.jsx:59 | The list never grows. |
| Http.ReadJson | src/pages/EventsPage.jsx:65-74 | A read succeeds exactly on a received 2xx response whose body parses, and it then holds the parsed value. A failing status is the error "<what> HTTP <status>". |
| Http.LoadBoth | src/pages/EventPage.jsx:426-437 | A success needs both responses received with a 2xx status. A rejected first request is its own error. |
| EventCard.Names | src/components/EventCard.jsx:24-26 | A card never shows more tags than its record has category ids. |
| EventsPage.TitleMatches | src/pages/EventsPage.jsx:354-355 | A matching search is never longer than the title. |
| EventsPage.FilteredEvents | src/pages/EventsPage.jsx:350-368 | The view never holds more events than the list. |
| EventsPage.CreatePayload | src/pages/EventsPage.jsx:54-62 | The POST body has one category id per checked box. |
| EventPage.CategoryNames | src/pages/EventPage.jsx:525-529 | The page never shows more names than its record has category ids. |
| EventPage.EditPayload | src/pages/EventPage.jsx:154-163 | The PUT body keeps the record's id and other fields, and it has one category id per checked box. |
| Newsletter.EmailPattern | src/pages/NewsletterPage.jsx:17 | An accepted address has at least five characters. |
| Newsletter.SignupFailure | src/pages/NewsletterPage.jsx:38-46 | A rejection is its own error, and success needs a received 2xx response. |
| Text.Trim | src/pages/NewsletterPage.jsx:14 | Trimming never lengthens a string. |
| Text.Lower | src/pages/EventsPage.jsx:354 | Lower-casing keeps the length and maps each character on its own. |
| Text.Contains | src/pages/EventsPage.jsx:355 | A contained text is never longer than the text containing it. |
| Values.KeyString | src/pages/EventPage.jsx:527 | A numeric id's string form is non-empty, and `Number` reads it back as the id. A string id is its own string form. |
| Values.ToNumber | src/pages/EventsPage.jsx:61 | A blank text converts to 0. |
| Seqs.Filter | src/pages/EventsPage.jsx:355 | `filter` never grows the list, keeps only selected elements of the list, and keeps every selected element. |
| DataContext.FetchJsonClassifies | src/context/DataContext.jsx:12-20 | A status outside 200-299 is an error "<status> <statusText>", whatever the body. 204 is `null`, whatever the body. Any other success is the parsed body, or the parse error. The result is `null` exactly for 204. |
| DataContext.ReplaceByIdSpec | src/context/DataContext.jsx:53 | An update keeps the length and every record with another id at its position. Every record with the id becomes the server's version. An absent id changes nothing. |
| DataContext.RemoveByIdKeepsOthers | src/context/DataContext.jsx:59 | A removal keeps every record with another id, with its multiplicity, and drops every record with the id. The result is a subsequence of the list, so the order is kept. |
| DataContext.RemoveByIdEffect | src/context/DataContext.jsx:59 | After a removal no record has the id. An absent id changes nothing, and a present one shortens the list. |
| DataContext.RemoveAfterReplace | src/context/DataContext.jsx:48-60 | Updating a record under its own id and then removing that id gives the same list as removing it directly. |
| DataContext.DisplayName | src/context/DataContext.jsx:68 | `c.name \|\| String(c)` is never empty, and it is the name whenever the name is non-empty. |
| DataContext.CategoryIndex | src/context/DataContext.jsx:66-70 | The lookup's keys are exactly the category ids, and every value is a non-empty display name. |
| DataContext.CategoryIndexLastWins | src/context/DataContext.jsx:68 | When ids repeat, the last category with the id decides its name, as `Map.set` does. |
| DataContext.Store.constructor | src/context/DataContext.jsx:7-10 | Both collections start empty, `loading` starts true, and there is no error. |
| DataContext.Store.BeginRefresh | src/context/DataContext.jsx:22-24 | Before the requests, `loading` is true and the error is cleared. |
| DataContext.Store.SettleRefresh | src/context/DataContext.jsx:25-36 | Either both collections are replaced by what the two requests returned, or neither is and the first failure is recorded. `loading` ends either way. |
| DataContext.Store.AddEvent | src/context/DataContext.jsx:39-46 | A successful POST appends the server's record at the end, and the result is the created record. A failure leaves the list unchanged and is returned. |
| DataContext.Store.UpdateEvent | src/context/DataContext.jsx:48-55 | A successful PUT replaces every record with the id by the server's version. A failure changes nothing and is returned. |
| DataContext.Store.RemoveEvent | src/context/DataContext.jsx:57-60 | A successful DELETE drops the records with the id. A failure changes nothing and is returned. |
| DataContext.Store.CategoryMap | src/context/DataContext.jsx:66-70 | The loop over the categories builds exactly the lookup `CategoryIndex` describes. |
| Http.LoadBothAllOrNothing | src/pages/EventsPage.jsx:321-335 | The paired load succeeds exactly when each request, read on its own, would succeed, and it then holds both values. A failure is the error of one of the two requests. |
| EventCard.NamesOf | src/components/EventCard.jsx:24-26 | There are never more names than ids. |
| EventCard.NamesOfValues | src/components/EventCard.jsx:25-26 | Every name shown is non-empty and is a value of the lookup. |
| EventCard.NamesOfAppend | src/components/EventCard.jsx:24-26 | Names follow the order of the ids: the names of a concatenation are the concatenation of the names. |
| EventCard.NamesOfOneId | src/components/EventCard.jsx:24-26 | An id missing from the lookup contributes nothing. Any other id contributes its name once per occurrence. |
| EventCard.NamesWithoutIds | src/components/EventCard.jsx:24 | A record without `categoryIds` shows no tags. |
| EventCard.NamesFromCategories | src/components/EventCard.jsx:24-26 | With the provider's lookup, the tags are the display names of exactly those ids that some category has, in id order. |
| Selection.Toggle | src/pages/EventsPage.jsx:344-348 | After a toggle the id is selected exactly when it was not selected before. Every other id keeps its state. |
| Selection.ToggleEffect | src/pages/EventsPage.jsx:44-48 | An absent id is appended at the end. A present id is removed with all its copies, and every other entry keeps its multiplicity and order. |
| Selection.ToggleTwiceRestores | src/pages/EventPage.jsx:136-140 | Checking and then unchecking a box restores the previous selection exactly. |
| Selection.ToggleKeepsDistinct | src/pages/EventPage.jsx:136-140 | A selection without repeated ids keeps that property after a toggle. |
| EventsPage.FilteredIsConjunction | src/pages/EventsPage.jsx:350-368 | The view is one filter, which checks every test that is switched on. The search is on when its text is not blank, and the categories are on when one is selected. |
| EventsPage.FilteredKeepsOrder | src/pages/EventsPage.jsx:350-368 | The view is a subsequence of the events. An event is shown, as often as it occurs, exactly when it passes the active tests. |
| EventsPage.FilterOffIsIdentity | src/pages/EventsPage.jsx:353-358 | A blank search with no selected category shows every event. |
| EventsPage.FilterIdempotent | src/pages/EventsPage.jsx:350-368 | Filtering the view again with the same inputs changes nothing. |
| EventsPage.UncategorisedHidden | src/pages/EventsPage.jsx:358-364 | While a category is selected, an event without category ids is hidden. |
| EventsPage.FilterAfterAppend | src/pages/EventsPage.jsx:350-368 | Appending an event extends the view by that event exactly when it passes the filters. Otherwise the view is unchanged. |
| EventsPage.JazzSearchIsCaseInsensitive | src/pages/EventsPage.jsx:353-355 | Both "jazz" and "JAZZ" match the title "Jazz Night". |
| EventsPage.JazzFoundBySearch | src/pages/EventsPage.jsx:353-355 | Searching "jazz" shows the event titled "Jazz Night". |
| EventsPage.JazzHiddenByOtherCategory | src/pages/EventsPage.jsx:358-364 | Selecting only category "20" hides an event whose one category is 10. |
| EventsPage.JazzFoundWithItsCategory | src/pages/EventsPage.jsx:350-368 | "JAZZ" with category "10" selected shows the event: the number 10 matches the checkbox id "10" through `String`. |
| EventsPage.CreatePayloadIds | src/pages/EventsPage.jsx:54-62 | Checked numeric ids are sent back as the same numbers, in the order they were checked. |
| EventsPage.Page.constructor | src/pages/EventsPage.jsx:303-309 | The page starts empty and loading, with no search and no selection. |
| EventsPage.Page.BeginLoad | src/pages/EventsPage.jsx:318-319 | Before the requests, `loading` is true and there is no error. |
| EventsPage.Page.SettleLoad | src/pages/EventsPage.jsx:321-340 | Either both collections are replaced, or neither is and the error, with an "Events"/"Categories" label, is recorded. `loading` ends either way. |
| EventsPage.Page.SetSearch | src/pages/EventsPage.jsx:415 | The search text is what was typed. |
| EventsPage.Page.ToggleCategory | src/pages/EventsPage.jsx:344-348 | The selection is toggled on that id. |
| EventsPage.Page.OnCreated | src/pages/EventsPage.jsx:568 | The created record is appended. The shown list gains it exactly when it passes the current filters. |
| EventsPage.AddForm.constructor | src/pages/EventsPage.jsx:23-30 | The form starts cleared and not submitting. |
| EventsPage.AddForm.SetInputs | src/pages/EventsPage.jsx:126-218 | Each input holds what was typed. |
| EventsPage.AddForm.ToggleCategory | src/pages/EventsPage.jsx:44-48 | The checked ids are toggled on that id. |
| EventsPage.AddForm.Reset | src/pages/EventsPage.jsx:32-40 | Every field is cleared and no category is checked. |
| EventsPage.AddForm.BeginSubmit | src/pages/EventsPage.jsx:50-62 | The form is submitting, and the POST body is the form's values with the checked ids as numbers. |
| EventsPage.AddForm.SettleSubmit | src/pages/EventsPage.jsx:64-83 | A created record is appended to the page and the form is cleared. A failure, labelled "Create", changes neither. `submitting` ends either way. |
| EventsPage.AddForm.Cancel | src/pages/EventsPage.jsx:86-90 | A cancel is ignored while submitting. Otherwise it clears the form. |
| EventPage.FindCategory | src/pages/EventPage.jsx:527 | A found category is in the list and its id has the same string form. Nothing is found only when no id has that string form. |
| EventPage.FindCategoryIsFirst | src/pages/EventPage.jsx:527 | The category found is the first one whose id has the same string form. |
| EventPage.NameOf | src/pages/EventPage.jsx:527-529 | One id gives at most one name. |
| EventPage.NamesFound | src/pages/EventPage.jsx:525-529 | There are never more names than ids. |
| EventPage.NamesFoundAppend | src/pages/EventPage.jsx:525-529 | Names follow the order of the ids. |
| EventPage.NamesFoundSkipsDangling | src/pages/EventPage.jsx:527-528 | An id that no category has is skipped. |
| EventPage.NamesFoundFirstMatch | src/pages/EventPage.jsx:525-529 | Any other id contributes the name of the first category with the same string form, once per occurrence. |
| EventPage.MatchesAcrossTypes | src/pages/EventPage.jsx:527 | A category with the numeric id n is matched both by the number n and by the string `String(n)`, so the number 1 and the string "1" both find category 1. |
| EventPage.NamesWithoutIds | src/pages/EventPage.jsx:526 | A record without `categoryIds` shows no category names. |
| EventPage.EditRoundTrip | src/pages/EventPage.jsx:126-162 | Opening the edit form on a record and saving it untouched sends back the record with the same id, other fields and texts, and its numeric category ids in the same order. Only the two times differ: they are whatever the date conversions made of the record's times. |
| EventPage.Page.constructor | src/pages/EventPage.jsx:408-411 | No event, no categories, no error, loading. |
| EventPage.Page.BeginLoad | src/pages/EventPage.jsx:423-424 | Before the requests the error is cleared and `loading` is true. |
| EventPage.Page.SettleLoad | src/pages/EventPage.jsx:426-445 | Either the event and the categories are both set, or neither is and the error, with an "Event"/"Categories" label, is recorded. `loading` ends either way. |
| EventPage.Page.OnUpdated | src/pages/EventPage.jsx:744 | The page shows the server's version of the event. |
| EventPage.EditForm.constructor | src/pages/EventPage.jsx:113-121 | Empty fields, no checked ids, not submitting, no error. |
| EventPage.EditForm.Open | src/pages/EventPage.jsx:123-134 | The form holds the record's values, the converted times and the record's ids as strings. The previous error is cleared. |
| EventPage.EditForm.SetInputs | src/pages/EventPage.jsx:228-318 | Each input holds what was typed. |
| EventPage.EditForm.ToggleCategory | src/pages/EventPage.jsx:136-140 | The checked ids are toggled on that id. |
| EventPage.EditForm.BeginSubmit | src/pages/EventPage.jsx:147-163 | The form is submitting with no error. The PUT body is the whole record with the form's values and numeric ids in place of the record's. |
| EventPage.EditForm.SettleSubmit | src/pages/EventPage.jsx:165-185 | On success the page shows the server's version. On failure the page keeps its record and the form shows the error's message, labelled "Update". `submitting` ends either way. |
| Newsletter.EmailPatternShape | src/pages/NewsletterPage.jsx:17 | `^[^\s@]+@[^\s@]+\.[^\s@]+$` accepts exactly the strings with no white space and exactly one `@`, not in first position, that have a `.` after the `@` which is neither the domain's first nor its last character. |
| Newsletter.Validate | src/pages/NewsletterPage.jsx:13-22 | The result is `""`, the required-fields message or the invalid-address message. |
| Newsletter.ValidateSpec | src/pages/NewsletterPage.jsx:13-22 | The required-fields message is returned exactly when a field is blank, so this check comes first. The invalid-address message is returned exactly when both fields are filled and the trimmed address has the wrong shape. `""` is returned exactly when both fields are filled and the shape is right. |
| Newsletter.AcceptedEmailShape | src/pages/NewsletterPage.jsx:17-21 | An accepted address, trimmed, is non-empty and has the accepted shape. |
| Newsletter.ValidateAcceptsPlainAddress | src/pages/NewsletterPage.jsx:17-21 | "ann@example.com" with a name passes validation. |
| Newsletter.ValidateReportsMissingAddress | src/pages/NewsletterPage.jsx:14-16 | An empty address gets the required-fields message, not the invalid-address one. |
| Newsletter.ValidateRejectsTwoAts | src/pages/NewsletterPage.jsx:17-19 | "a@b@c.d" gets the invalid-address message. |
| Newsletter.SignupFailureSpec | src/pages/NewsletterPage.jsx:44-46 | The signup succeeds exactly on a received 2xx response, and the body is never read. |
| Newsletter.Form.constructor | src/pages/NewsletterPage.jsx:7-11 | Empty inputs, no messages, not submitting. |
| Newsletter.Form.SetName | src/pages/NewsletterPage.jsx:102 | The name holds what was typed. |
| Newsletter.Form.SetEmail | src/pages/NewsletterPage.jsx:116 | The address holds what was typed. |
| Newsletter.Form.BeginSubmit | src/pages/NewsletterPage.jsx:24-41 | Both messages are cleared. An invalid form shows the validator's message and sends nothing, and the inputs and `submitting` are unchanged. A valid form is submitting and sends the trimmed name and address. |
| Newsletter.Form.SettleSubmit | src/pages/NewsletterPage.jsx:37-55 | Success clears both inputs and shows the thank-you message. Failure keeps the inputs and shows "Aanmelden mislukt: " followed by the error message. `submitting` ends either way. |
| Values.DecimalRoundTrip | src/pages/EventPage.jsx:162 | `Number(String(n))` is `n` for every integer. |
| Values.NumbersOfStringified | src/pages/EventPage.jsx:132 | Stringifying numeric ids and mapping `Number` over them gives the same numbers in the same order. |
| Text.TrimSpec | src/pages/NewsletterPage.jsx:14 | `trim()` is empty exactly for a blank string. Otherwise the result starts and ends with a non-white-space character, and it is the slice left once the blank runs at both ends are cut off. |
| Seqs.FilterCount | src/pages/EventsPage.jsx:355 | `filter` keeps each selected element as often as it occurs and drops every other element. |
| EventPage.FindCategoryMissing | src/pages/EventPage.jsx:527 | When no category's id has the string form of the id, nothing is found. |
| Seqs.FilterFilter | src/pages/EventsPage.jsx:355-364 | Two filters in a row are one filter by the conjunction of their tests. |

## Left out

- Presentation is not modelled: the JSX, Chakra UI, `alert`, `AppToaster`, `EventModal`, `Navigation` and routing. `alert` calls only display text.
- Date conversion is not modelled. `toDateTimeLocal` and `fromDateTimeLocal` depend on the local time zone, so their results are parameters of `EditForm.Open`, `AddForm.BeginSubmit` and `EditForm.BeginSubmit`.
- `fmt` in `EventCard` is not modelled, because it only formats dates for display.
- Interleaving is not modelled. Each handler is two atomic steps, and the model does not capture a response that arrives after the component unmounted, two loads racing, or `useEffect` re-running on a new route id.
- The event page's registration form (`handleRegistration`), its delete dialog (`actuallyDelete`) and `navigate` are not modelled. They are one-shot requests that leave no local state to reconcile.
- DataContext.RefreshResult: a 204 reply to either request becomes an empty list, where `fetchJson` returns `null`. When both requests fail, the events error is always the one reported, where `Promise.all` keeps whichever rejection settles first.
- DataContext.Store.SettleRefresh: a 204 reply stores `null` in the provider. The model stores an empty list instead, because a `null` collection has no place in a `seq`.
- DataContext.Store.AddEvent: when the POST answers 204, the code appends `null` to the list. The model returns `Ok(None)` and leaves the list unchanged.
- DataContext.Store.UpdateEvent: when the PUT answers 204, the code puts `null` in place of the matching records. The model returns `Ok(None)` and leaves the list unchanged.
- Http.LoadBoth: when both requests of one `Promise.all` fail, the code keeps whichever rejection settles first, which depends on timing. The model always keeps the first request's error.
- DataContext.Store.SettleRefresh: likewise, when both requests fail it keeps the events request's error.
- Text.Lower: `toLowerCase()` also lowers non-ASCII letters, which the model does not.
- Values.ToNumber: only the integer forms of `Number(text)` are computed. Fractions, exponents, hexadecimal, `Infinity` and `NaN` all become `OtherNumber`. So do texts with a decimal point, even when JavaScript gives an integer (`Number("1.0")` is 1 and `Number("5.")` is 5). Digit strings above 2^53 are kept exact, where JavaScript rounds them to the nearest double. Neither case reaches the payloads, whose texts come from `String` of a category id.
- Records are typed. A missing `title`, `description`, `image` or `location` is modelled as `""`. This matches the edit form, which reads `event.title || ""`. A missing `categoryIds` is `None`.
- EventsPage.TitleMatches: the filter calls `ev.title.toLowerCase()` with no fallback. A record without a title therefore throws a `TypeError` inside `filteredEvents` once the search is not blank. The model reads the missing title as `""` and hides the event without an error.
- EventsPage.FilteredEvents: for the same reason, the model does not capture the `TypeError` that the filter throws for an untitled record while a search is active.
- EventPage.EditPayload: `otherFields` holds only string-valued fields. Fields of other JSON types that `{ ...event }` sends back unchanged are not represented.
- Values.KeyString: numeric ids are modelled as integers, printed in plain decimal. JavaScript ids are doubles, and `String` prints fractions such as `1.5`, and integers from 10^21 up in exponent form (`1e+21`). The model is therefore faithful only for integer ids below 10^21.
- Each event's `id` is kept as returned. Ids are not assumed unique, and the lemmas hold with repeated ids.
- DataContext.DisplayName: the category lookup's `String(c)` fallback is modelled as "[object Object]". That is what `String` yields for a plain object parsed from JSON, which is what each category is.
