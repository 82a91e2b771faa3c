# Hotel front end: data shaping of `HotelApp`

This project models the logic of the hotel desktop client `HotelApp` (`main4.py`) that sits
between the 1C OData service and the read-only text widget of the window. The client fetches
entity sets (employees, guests, bookings, rooms) as JSON, and each button fills the widget with a
text built from the fetched records:

- `get_data` builds the request URL `BASE_URL + <entity set> + "?$format=json"` and hands back the
  decoded body or an error text;
- `display` shows an error text as it is, "⚠ Нет данных" for a body without `value`, and
  otherwise a `=== title ===` header with one line per record;
- `resolve_name` finds a record by key, first match wins, and answers "Не найдено" otherwise;
- `load_bookings` writes one templated block per booking (room, dates cut to ten characters,
  guests), then strips the whole text;
- `load_rooms` probes the first room for a prestige field, filters the rooms by the selected
  value, and falls back to listing all rooms.

Files:

- `wrappers.dfy`: `Option`.
- `json.dfy`: the decoded JSON: `Value`, `Record` (a map), `Envelope` (the optional `value`
  list), `Fetch` (`Err(msg) | Ok(body)`), `dict.get` and `str()` of a value.
- `strings.dfy`: the Python string operations used: `join`, `[:n]`, `strip()`; `split` serves
  only to state how many lines a text has, with the join/split round trips proved.
- `hotel.dfy`: module `Hotel`, the pure specification: constants, the URL, the resolver, the
  listing text, the booking report, the room filter, and the lemmas about them.
- `hotel_app.dfy`: module `App`, class `HotelApp` with the widget text `output` and a ghost log
  `requests` of the requested URLs. Its button handlers keep the source's loops and are proved to
  leave exactly the text of the matching `Hotel` function in `output`.

The HTTP service is a parameter `server: string -> Fetch`, the answer each URL gets during one
button press. The prestige chosen in the combo box is a parameter `selectedType`.

The query string is `?$format=json`, as `main4.py:61` sends it (`Hotel.FormatQuery`).

Python behaviour made explicit:

- JSON null decodes to Python's `None`, so `dict.get` without a default answers `None` both for a
  missing field and for a null one. The resolver compares keys this way (`Json.Lookup`), and
  `None == None` holds: a booking whose `НомерКомнаты_Key` is missing or null resolves to the
  first room whose `Ref_Key` is missing or null (`Hotel.NullKeysMatch`). Where a default is
  given, null and missing differ (`Json.Get`): a null `Description` is `None`, not the default.
- `s[:10]` is `Strings.Slice`: the whole text when it is shorter.
- `str.strip()` removes every character for which `str.isspace()` holds (`Strings.Whitespace`).
- The booking f-string has a line break and twelve spaces of indentation before each line and
  after the separator (`Hotel.BlockBreak`).
- Inputs that make Python raise become preconditions: `Titled`, `Printable`, `DateField`,
  `HasGuestList`, `Named`, `Bookable`, `Displayable`, `RoomsShowable` and `App.BookingsLoadable`.
  Examples are a `Description` that is JSON null in a listed record (the `+=` or `join` fails), a
  date that is null (slicing fails), a resolved guest name that is not text (`join` fails), and a
  failed rooms or guests fetch once a room or guest has to be resolved (`.get` on the error text
  fails). Each asks only about what the source reads: `RoomsShowable` constrains the kept rooms
  when a prestige field is found, and all rooms only when none is.

## Model

| member | source | states |
|---|---|---|
| Hotel.Url | main4.py:61 | the URL is the service root, then the entity set's name, then `?$format=json`, each at its position |
| Hotel.UrlInjective | main4.py:61 | two entity sets with the same URL are the same set |
| App.HotelApp.GetData | main4.py:59-61 | the answer is what the service gives for the set's URL, and exactly that URL is appended to the request log |
| Json.Get | main4.py:84-86 | the decoded field, JSON null kept apart from a missing field, as `get` with a default sees it; used through Title, Column and DatePart |
| Json.Lookup | main4.py:95-96 | `get` without a default: None exactly when the field is missing or null, and the field's value otherwise |
| Json.Records | main4.py:115 | the `value` list of a body, empty without one; stated through ResolveNameSpec and DisplayText |
| Json.Show | main4.py:86 | `str()` of a field in an f-string: text as it is, "None" for null or missing; stated through RowLine and BookingBodyLines |
| Hotel.FirstName | main4.py:94-98 | the first-match scan; what it answers is stated by FirstNameSpec and FirstMatchWins |
| Hotel.ResolveName | main4.py:92-98 | `resolve_name` over a body; what it answers is stated by ResolveNameSpec and NullKeysMatch |
| Hotel.FirstNameSpec | main4.py:94-98 | the scan answers the name field of the first record whose key field equals the key value (a missing or null field counting as None on both sides), and "Не найдено" when no record matches |
| Hotel.ResolveNameSpec | main4.py:92-98 | `resolve_name` answers "Не найдено" for a body without `value` and when no record matches; otherwise the name field of the first match, None when that record lacks it or holds null there; keys compare as Python compares them, a missing or null field being None |
| Hotel.FirstMatchWins | main4.py:94-96 | once a record matches, records after it are never consulted: appending records changes nothing |
| Hotel.NullKeysMatch | main4.py:95 | a booking whose room key is missing or null resolves to the first room when that room's `Ref_Key` is missing or null as well |
| Hotel.Title | main4.py:84 | the record's `Description`, or "(без названия)" without one; stated through RowLine and ListingLines |
| Hotel.Column | main4.py:86 | a mapped field as shown, empty when missing; stated through KeptRoomLine |
| Hotel.Columns | main4.py:86-87 | the `label: value` entries in the mapping's order; stated through RowLine and KeptRoomLine |
| Strings.Join | main4.py:87 | `sep.join`; stated through SplitJoin, JoinSplit, JoinAppend and JoinAvoids |
| Hotel.RowLine | main4.py:84-87 | a listing line starts with the record's title, and it is only the title exactly when there is no mapping |
| Hotel.RowLines | main4.py:83-88 | one line per record, the i-th line being the i-th record's line |
| Hotel.RowLinesStep | main4.py:83-88 | one more loop step appends the next record's line |
| Hotel.DisplayText | main4.py:72-90 | the text `display` shows; stated through ListingLines and App.HotelApp.Display |
| Hotel.ListingLines | main4.py:81-90 | a listing has exactly 1 + n lines: the `=== title ===` header, then each record's line in order, each starting with its title |
| App.HotelApp.FormatRow | main4.py:84-87 | the line built in the loop body is the record's listing line |
| App.HotelApp.ListRows | main4.py:81-88 | the loop leaves the header followed by the records' lines in order |
| App.HotelApp.Display | main4.py:72-90 | an error text is shown unchanged, a body without `value` shows "⚠ Нет данных", and otherwise the listing text is shown |
| App.HotelApp.LoadEmployees | main4.py:100-102 | the employees set is requested once and listed under "Сотрудники" with the `Должность` column |
| App.HotelApp.LoadGuests | main4.py:104-106 | the guests set is requested once and listed under "Гости" with titles only |
| Hotel.DatePart | main4.py:127-128 | a date is empty when the field is absent, and otherwise the field's first ten characters, or all of it when shorter |
| Strings.Slice | main4.py:127-128 | `s[:n]` has at most n characters, is a prefix of s, is all of s when s is short, and has n characters otherwise |
| Hotel.GuestNames | main4.py:131-136 | one resolved name per guest reference, the k-th name being the k-th reference's resolution |
| Hotel.GuestNamesStep | main4.py:132-136 | one more step of the guest loop appends the next resolved name |
| Hotel.GuestRefs | main4.py:132 | the booking's guest references, none without the field; stated through GuestNames |
| Hotel.RoomName | main4.py:123-125 | the booking's room resolved against the rooms by `Ref_Key`; stated through ResolveNameSpec and NullKeysMatch |
| Hotel.GuestName | main4.py:133-135 | a guest reference resolved against the guests by `Ref_Key`; stated through ResolveNameSpec |
| Hotel.GuestsText | main4.py:138 | the resolved names joined by ", ", or "Нет данных" without guest references; stated through BookingBodyLines |
| Hotel.Template | main4.py:140-146 | a booking block starts with `Номер: ` and ends with the thirty-dash separator |
| Hotel.TemplateLines | main4.py:140-146 | a booking block is exactly the four labelled lines and the indented separator line |
| Hotel.BookingBody | main4.py:123-146 | one booking's text: its resolved room, cut dates and guest line in the template; stated through BookingBodyLines |
| Hotel.Bodies | main4.py:122-146 | the bookings' texts in fetch order; stated through ReportBlockLines and FramedStep |
| Strings.Surround | main4.py:120-146 | each part between two copies of a break, in order: with the template's line break, the accumulated `result_text`; stated through SurroundSnoc, SurroundJoin and FramedStep |
| Strings.SurroundSnoc | main4.py:140-146 | one more part appends it between two breaks, as one `+=` of the booking loop does |
| Hotel.BookingsReport | main4.py:120-148 | the stripped report; stated through BookingsReportBodies |
| App.HotelApp.FormatBooking | main4.py:123-146 | the block built for one booking, with its inner guest loop, is that booking's text in the report |
| Hotel.FramedStep | main4.py:122-146 | one more step of the booking loop appends the next booking's text between two template line breaks |
| App.HotelApp.FrameBookings | main4.py:120-146 | the booking loop leaves every booking's text, in fetch order, each between two template line breaks |
| Strings.Strip | main4.py:148 | `str.strip()`: right stripping after left stripping; stated through TrimStart, TrimEnd and StripFramed |
| Strings.TrimStart | main4.py:148 | left stripping removes the leading whitespace and only it |
| Strings.TrimEnd | main4.py:148 | right stripping removes the trailing whitespace and only it |
| Strings.StripFramed | main4.py:148 | stripping text that is framed by whitespace and has no whitespace at its ends gives that text |
| Strings.SurroundJoin | main4.py:120-146 | the accumulated text is a break, the parts joined by two breaks (for bookings, an empty template line), and a break |
| Hotel.BodyAt | main4.py:140-146 | each booking text in the report starts with `Номер: ` and ends with the separator |
| Hotel.StripFramedJoin | main4.py:148 | stripping the accumulated text leaves the booking texts joined by an empty template line, and that is never empty |
| Hotel.BookingsReportBodies | main4.py:120-148 | the report is the bookings' texts joined by an empty template line, and it is empty exactly when there are no bookings |
| Hotel.BookingBodyLines | main4.py:123-146 | a booking's text is the room line, the entry and exit dates, the guest line and the separator |
| Hotel.ReportBlockLines | main4.py:122-146 | the i-th text of the report belongs to the i-th booking, as its five lines |
| App.HotelApp.LoadBookings | main4.py:108-148 | on a bookings error its text is shown and nothing more is requested; otherwise bookings, rooms and guests are requested in that order and the report is shown, a failed rooms or guests fetch being allowed while nothing has to be resolved against it |
| Hotel.FirstPresent | main4.py:162-168 | the probe finds no field exactly when no candidate is among the keys, and otherwise the first candidate that is |
| Hotel.PrestigeOf | main4.py:162-168 | the probe of the first room's keys, none without rooms; stated through FirstPresent and App.HotelApp.LoadRooms |
| Hotel.FilterRooms | main4.py:171 | the filter keeps exactly the rooms whose field equals the selected text, and never more rooms than there are |
| Hotel.FilterRoomsConcat | main4.py:171 | the filter keeps the rooms' order: filtering a concatenation concatenates the filtered parts |
| Hotel.FilteredListable | main4.py:171-175 | the kept rooms can be listed with their prestige column |
| Hotel.RoomsNoneMatch | main4.py:170-177 | with a prestige field, "⚠ Нет номеров с престижем: <type>" is shown exactly when no room has the selected value, whatever the rooms' descriptions |
| Hotel.KeptRoomLine | main4.py:171-175 | a kept room's line is its title, then the field name and the selected value |
| Hotel.RoomsMatchLines | main4.py:170-175 | with matching rooms, the text is the `=== Номера — <type> ===` header, then one line per kept room in order; only the kept rooms' titles matter |
| Hotel.RoomsFallback | main4.py:178-179 | without a prestige field, all rooms are listed under "Все номера", one title line each, in order |
| Hotel.RoomsText | main4.py:151-179 | the text `load_rooms` shows; stated through RoomsNoneMatch, RoomsMatchLines and RoomsFallback |
| App.HotelApp.LoadRooms | main4.py:151-179 | the rooms set is requested once; the probe with `break` finds the prestige field, and the text shown is the room filter's text |
| Strings.SplitJoin | main4.py:90 | joining lines that hold no line break with "\n" and splitting the result gives the lines back |
| Strings.JoinSplit | main4.py:90 | splitting a text at "\n" and joining the pieces gives the text back |

## Left out

- The network call, its timeout, the status check, `response.json()` and the texts of the
  connection and status errors (`main4.py:60-70`): the service is the parameter `server`, and an
  error is any `Err(msg)`.
- The Qt window: widgets, style sheet, button wiring and the `__main__` block
  (`main4.py:14-57`, `main4.py:182-203`). Reading the combo box (`main4.py:152`) is the parameter
  `selectedType`.
- Python exceptions: the inputs that would raise are excluded by preconditions instead of being
  modelled as crashes.
- `str()` of nested lists, numbers and booleans: JSON numbers and booleans are not distinguished
  from text. A nested list in a shown field is excluded by `Printable`.
- A `value` key that holds JSON null: Python would fail iterating it; `Envelope` has no such case.
- The mapping of `display` is a list of (label, field) pairs; a dictionary's unique keys are not
  enforced.
