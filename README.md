# Contact and scheduling flow of the Nova Labs site, in Dafny

This project models the only logic of the Nova Labs marketing site: how visitors
contact the company and book meetings, and how the temporary admin page shows and
clears what they sent. Everything is kept in the browser's localStorage.

- `wrappers.dfy`: module `Wrappers`, with `Option` and `Result`.
- `browser_storage.dfy`: module `BrowserStorage`. `LocalStorage` is a class over a
  map from key to stored text. A stored text is one of three things: the empty
  string, the JSON of an array of records, or text on which `JSON.parse` throws.
  The module also gives the two ways the site reads a key:
  - `JSON.parse(getItem(k) || "[]")`;
  - `if (stored) set(JSON.parse(stored))`.
- `contact_form.dfy`: module `ContactValidators`, for `lib/validators/contact-form.ts`.
  It holds:
  - the contact and meeting schemas as predicates. String length is counted the way
    JavaScript counts it, in UTF-16 code units;
  - `AppendEntry`, the append-one-record update of the store, as a function;
  - `storeMeetingData` and `storeContactData` as methods that change the store.
- `contact_page.dfy`: module `Contact`, for `app/contact/page.tsx`. It holds:
  - the calendar's `disabled` rule over day numbers;
  - the 14 fixed time slots, proved to be the half hours 9:00–11:30 and 13:00–16:30;
  - the `ContactPage` class. Its fields are the step, form type, date, slot, success
    data and both forms' values. Its methods are the page's handlers.
- `admin_contact.dfy`: module `Admin`, for `app/admin/contact/page.tsx`. It holds the
  load effect, `clearData` and `formatDate`.

Each `ContactPage` handler has a `requires` that names the step and tab in which its
button or form is on screen. For example, Back exists only on the calendar step of the
meeting tab, and the reset button exists only on the success screen.

The tab widget is uncontrolled: it starts on "meeting" every time it is mounted. The
field `ContactPage.tab` holds the tab it shows. The widget is unmounted while the
success screen is shown.

Behaviours of the code that the model keeps as they are:
- A malformed stored list makes `storeMeetingData` and `storeContactData` throw, because
  nothing catches the parse error. The model returns `Err` and leaves the store and the page
  unchanged.
- `resetForms` keeps `formType` and the success data; only the forms, the date, the slot and
  the step are reset.
- The page preselects today, on load and on reset, even on a Saturday or Sunday, which the
  calendar disables; `onMeetingSubmit` does not check the date. `WeekendMeeting` books such a
  day.
- The schemas count UTF-16 code units, so a name of one emoji passes the two-character
  minimum (`AstralCharacterIsLongEnough`).

## Model

| member | source | states |
|---|---|---|
| `ContactValidators.JsLength` | lib/validators/contact-form.ts:5-9 | the length that `min` checks is at least the number of characters and at most twice that; it is 0 only for the empty string |
| `ContactValidators.JsLengthInBmp` | lib/validators/contact-form.ts:5-9 | for text without astral characters, that length is the character count |
| `ContactValidators.AstralCharacterIsLongEnough` | lib/validators/contact-form.ts:5 | every one-character name made of a character outside the Basic Multilingual Plane passes the two-character minimum |
| `ContactValidators.ContactSchemaBounds` | lib/validators/contact-form.ts:4-10 | a valid record has a valid email, a name and a subject of at least 1 character and a message of at least 5; a valid email plus 2, 2 and 10 characters always passes |
| `ContactValidators.ContactSchemaInBmp` | lib/validators/contact-form.ts:4-10 | on plain text the schema holds iff the email is valid, name ≥ 2, subject ≥ 2 and message ≥ 10 |
| `ContactValidators.CompanyIsUnconstrained` | lib/validators/contact-form.ts:7 | replacing `company` by any value, or removing it, never changes validity |
| `ContactValidators.MeetingSchemaIff` | lib/validators/contact-form.ts:13-16 | a meeting record is valid iff its contact fields are valid and `date` and `timeSlot` are non-empty |
| `ContactValidators.AppendEntry` | lib/validators/contact-form.ts:24-31 | fails exactly when the stored text is malformed; otherwise the list under the key is one longer, keeps the old entries in order and ends with the new one, and every other key is unchanged |
| `ContactValidators.FirstStoreIsSingleton` | lib/validators/contact-form.ts:24-31 | storing under a missing key gives a one-element list |
| `ContactValidators.AppendsAccumulate` | lib/validators/contact-form.ts:23-32 | successive stores leave the old list followed by all new entries in order, and touch no other key |
| `ContactValidators.StoresCommute` | lib/validators/contact-form.ts:23-44 | storing a message and a meeting gives the same store in either order |
| `ContactValidators.AppendRecord` | lib/validators/contact-form.ts:24-31 | the read, extend and write sequence leaves exactly the store that `AppendEntry` describes, or the old store together with the parse error |
| `ContactValidators.StoreMeetingData` | lib/validators/contact-form.ts:23-32 | appends the meeting stamped with `submittedAt` to "scheduledMeetings"; "contactMessages" is unchanged |
| `ContactValidators.StoreContactData` | lib/validators/contact-form.ts:35-44 | appends the message stamped with `submittedAt` to "contactMessages"; "scheduledMeetings" is unchanged |
| `BrowserStorage.Get` | app/admin/contact/page.tsx:41-42 | `getItem` is absent exactly for keys not in the store, and otherwise gives the stored text |
| `BrowserStorage.ParseListOrEmpty` | lib/validators/contact-form.ts:24 | a missing key and the empty text read as `[]`; a stored array reads as itself; only malformed text fails |
| `BrowserStorage.ReadIfPresent` | app/admin/contact/page.tsx:44-50 | absent or empty text is skipped, malformed text throws, and an array is parsed |
| `BrowserStorage.ReadsAgree` | app/admin/contact/page.tsx:41-50 | the two read idioms agree: a skipped read is `[]`, a parsed read is the same list, and they fail on the same texts |
| `BrowserStorage.LocalStorage.GetItem` | app/admin/contact/page.tsx:41 | gives the stored text under the key, or nothing when the key is absent |
| `BrowserStorage.LocalStorage.SetItem` | lib/validators/contact-form.ts:25 | the store maps the key to the new text; other keys are unchanged |
| `BrowserStorage.LocalStorage.RemoveItem` | app/admin/contact/page.tsx:67 | the key is gone; other keys are unchanged |
| `Contact.Weekday` | app/contact/page.tsx:565-566 | `getDay` gives 0 to 6, and day 0 (1970-01-01) is a Thursday |
| `Contact.WeekdayNext` | app/contact/page.tsx:565-566 | the weekday advances by one each day, modulo 7 |
| `Contact.DisabledWeekly` | app/contact/page.tsx:560-567 | from today on, a date is selectable iff it falls Monday to Friday, and the rule repeats weekly |
| `Contact.SelectableWithinThreeDays` | app/contact/page.tsx:560-567 | from any date on or after today, some selectable date is at most two days away |
| `Contact.WeekendTodayIsDisabled` | app/contact/page.tsx:137 | whenever today is a Saturday or Sunday, the preselected date (today) is one the calendar disables |
| `Contact.SlotStart` | app/contact/page.tsx:168-173 | each slot starts on a half hour, between 9:00 and 12:00 or between 13:00 and 17:00 |
| `Contact.TimeSlotsAreHalfHours` | app/contact/page.tsx:168-173 | the 14 slot labels are the clock labels of those half hours, in order |
| `Contact.OneButtonHighlighted` | app/contact/page.tsx:590-596 | slot labels are pairwise distinct, so the held slot highlights exactly one button |
| `Contact.ContactPage.Banner` | app/contact/page.tsx:294-334 | the success heading reads "Meeting Scheduled" iff the form type is meeting, and "Message Sent" iff it is message |
| `Contact.ContactPage.constructor` | app/contact/page.tsx:137-165 | first render: details step, meeting form type and tab, today preselected, empty slot, empty success data, default form values |
| `Contact.ContactPage.OnTabChange` | app/contact/page.tsx:175-177 | choosing the other tab sets the form type and the tab shown, and nothing else; clicking the tab already shown changes nothing, even when the form type differs |
| `Contact.ContactPage.EditMeetingForm` | app/contact/page.tsx:144-153 | typing changes only the meeting form's values |
| `Contact.ContactPage.EditMessageForm` | app/contact/page.tsx:156-165 | typing changes only the message form's values |
| `Contact.ContactPage.OnMeetingDetailsSubmit` | app/contact/page.tsx:179-182 | with valid details, moves from details to calendar and stores nothing; with invalid details, changes nothing |
| `Contact.ContactPage.OnSelectDate` | app/contact/page.tsx:556-567 | an enabled day becomes the date; a click on the selected day clears it if that day is enabled; a disabled day can be neither chosen nor cleared, so nothing changes |
| `Contact.ContactPage.SelectTimeSlot` | app/contact/page.tsx:596 | the chosen slot replaces the previous one; nothing else changes, and the held slot is always one of the 14 |
| `Contact.ContactPage.Back` | app/contact/page.tsx:611 | returns to details and keeps the form values, date and slot |
| `Contact.ContactPage.OnMeetingSubmit` | app/contact/page.tsx:184-208 | is a no-op without a date or a slot. Otherwise it stores exactly one meeting: the details, the formatted date and the slot. The success data then holds that date and slot, and the step is success. That meeting passes the meeting schema whenever the formatted date is non-empty. Messages are untouched. A malformed list changes nothing |
| `Contact.ContactPage.OnMessageSubmit` | app/contact/page.tsx:210-217 | with valid values, stores exactly one message, clears the success data and shows success; never touches the meetings; invalid values or a malformed list change nothing |
| `Contact.ContactPage.ResetForms` | app/contact/page.tsx:219-225 | as written: back to details with empty forms, today preselected and an empty slot. The tab shows meeting again, but the form type and success data are kept. Tab and form type agree afterwards iff the form type was meeting |
| `Contact.ContactPage.ResetFormsCorrected` | app/contact/page.tsx:219-225 | the reset with the form type also returned to meeting, which keeps tab and form type in agreement |
| `Contact.MeetingAfterMessage` | app/contact/page.tsx:219-225 | message, reset, then a booked meeting: the success screen holds the slot but reads "Message Sent" |
| `Contact.WeekendMeeting` | app/contact/page.tsx:137 | on a Saturday or Sunday, valid details plus a slot, without touching the calendar, store a meeting dated `formatPPP(today)` and show that date on the success screen, although the calendar disables today |
| `Contact.MeetingAfterMessageCorrected` | app/contact/page.tsx:219-225 | the same visit with the corrected reset reads "Meeting Scheduled" |
| `Admin.AfterLoad` | app/admin/contact/page.tsx:39-54 | a stored array replaces its list; an absent or empty key leaves it; malformed meetings text stops the messages from being read |
| `Admin.FormatDate` | app/admin/contact/page.tsx:56-62 | gives the rendered date, or the input unchanged when rendering fails |
| `Admin.ViewerSeesStoredMeeting` | app/admin/contact/page.tsx:39-54 | after a meeting is stored, the viewer shows the previous meetings followed by the new one |
| `Admin.ViewerSeesStoredMessage` | app/admin/contact/page.tsx:39-54 | after a message is stored, the viewer shows previous messages plus the new one, or none at all when the meetings text is malformed |
| `Admin.ClearedKeyReadsEmpty` | app/admin/contact/page.tsx:64-74 | a deleted key reads as the empty list both ways, and the other key reads as before |
| `Admin.AdminContactPage.constructor` | app/admin/contact/page.tsx:34-36 | both lists start empty, on the meetings tab |
| `Admin.AdminContactPage.SetActiveTab` | app/admin/contact/page.tsx:99 | switches the tab; the lists are unchanged |
| `Admin.AdminContactPage.Load` | app/admin/contact/page.tsx:39-54 | the lists become what `AfterLoad` gives for the two stored texts; the tab is unchanged |
| `Admin.AdminContactPage.ClearData` | app/admin/contact/page.tsx:64-74 | when confirmed, removes only the active tab's key and empties only its list; when not confirmed, changes nothing |

## Findings

| source | as written | input that shows it | evidently intended | confidence | as-written member | corrected member |
|---|---|---|---|---|---|---|
| app/contact/page.tsx:219-225 | `resetForms` keeps `formType`, but the tab widget is mounted again on "meeting" | send a message, press "Send Another Message", then book a meeting: the meeting is stored, but the success screen says "Message Sent" and offers "Send Another Message" | the reset also sets `formType` back to "meeting", so the screen names the flow just completed | medium (depends on the tab widget being uncontrolled); not executed | `Contact.MeetingAfterMessage` | `Contact.ContactPage.ResetFormsCorrected` |

## Left out

- The email grammar of the validation library is a parameter, `isEmail`.
- Zod's error messages are not modelled. The model only says whether a record is valid.
- date-fns `format(..., "PPP")` and `format(parseISO(...), "PPP p")` are parameters. Each is a function; the second returns `None` where date-fns throws.
- Dates are day numbers in the visitor's time zone. Clock times within a day are not modelled.
- `new Date()` is not modelled: "today" is a parameter. `new Date().toISOString()` is too: `submittedAt` is a parameter.
- JSON is not modelled as text. A stored value is one of three things: empty, an array of records, or malformed.
- Stored JSON that parses to something other than an array is not modelled. The site never writes such a value.
- `setItem` failing because the store is full or disabled is not modelled.
- Cross-tab races on localStorage are not modelled. Each handler runs as one atomic step.
- `window.confirm` is the boolean `confirmed`.
- The catch in the admin load effect logs to the console. The model keeps only its effect on state.
- React rendering, animations and the 3D scenes are not modelled. Neither are the other pages, the navbar and the media-query hook: they are presentation only.
- The choices offered in the subject drop-downs are not modelled. The schema checks only the subject's length.
- Button states (`disabled` while the form is invalid or a submission is running) are not modelled. The validation in `handleSubmit`, which they mirror, is.
