/**
  The data shaping of the hotel front end (HotelApp in main4.py), as functions of the fetched
  data: the request URL, the key resolver, the plain listing, the booking report and the
  room filter. The class in hotel_app.dfy runs the same steps imperatively and is proved
  to leave exactly these texts in its output widget.
 */
module Hotel {
  import opened Wrappers
  import opened Json
  import opened Strings

  // ----- names used on the wire -----

  const BaseUrl := "http://localhost/asd/odata/standard.odata/"
  const FormatQuery := "?$format=json"

  const EmployeesSet := "Catalog_Сотрудники"
  const GuestsSet := "Catalog_Гость"
  const BookingsSet := "Document_Бронирование"
  const RoomsSet := "Catalog_НомерКомнаты"

  const DescriptionKey := "Description"
  const PositionKey := "Должность"
  const RefKey := "Ref_Key"
  const RoomRefKey := "НомерКомнаты_Key"
  const GuestListKey := "Гость"
  const GuestRefKey := "Гость_Key"
  const EntryKey := "ДатаЗаезда"
  const ExitKey := "ДатаВыезда"

  /** Field names that may carry a room's prestige, in the order they are probed. */
  const PrestigeCandidates: seq<string> := ["Престиж", "Категория", "Тип"]

  // ----- texts shown in the widget -----

  const NotFound := "Не найдено"
  const NoData := "⚠ Нет данных"
  const Untitled := "(без названия)"
  const NoGuests := "Нет данных"
  const NoRoomsPrefix := "⚠ Нет номеров с престижем: "
  const AllRoomsTitle := "Все номера"
  const RoomsTitlePrefix := "Номера — "
  const EmployeesTitle := "Сотрудники"
  const GuestsTitle := "Гости"

  /** The indentation that the booking template carries on each of its lines. */
  const Indent := "            "
  /** A line break inside the booking template: newline, then the template's indentation. */
  const BlockBreak := "\n" + Indent
  const Separator := "------------------------------"

  // ----- URL -----

  /** The request URL of an entity set: the service root, the set's name, the JSON format option. */
  function Url(endpoint: string): (u: string)
    ensures |u| == |BaseUrl| + |endpoint| + |FormatQuery|
    ensures u[..|BaseUrl|] == BaseUrl
    ensures u[|BaseUrl|..|BaseUrl| + |endpoint|] == endpoint
    ensures u[|BaseUrl| + |endpoint|..] == FormatQuery
  {
    BaseUrl + endpoint + FormatQuery
  }

  /** Different entity sets are requested at different URLs. */
  lemma UrlInjective(a: string, b: string)
    requires Url(a) == Url(b)
    ensures a == b
  {
  }

  // ----- key resolver -----

  /** The first-match scan behind `resolve_name`, over a list of records. */
  function FirstName(items: seq<Record>, keyField: string, keyValue: Option<Value>, nameField: string): Option<Value>
    decreases |items|
  {
    if items == [] then Some(Text(NotFound))
    else if Lookup(items[0], keyField) == keyValue then Lookup(items[0], nameField)
    else FirstName(items[1..], keyField, keyValue, nameField)
  }

  /** `resolve_name`: scan the dataset's `value` list (none when the key is missing). */
  function ResolveName(dataset: Envelope, keyField: string, keyValue: Option<Value>, nameField: string): Option<Value>
  {
    FirstName(Records(dataset), keyField, keyValue, nameField)
  }

  /** Record i is the first whose key field equals the key value. */
  predicate FirstMatchAt(items: seq<Record>, keyField: string, keyValue: Option<Value>, i: int)
  {
    && 0 <= i < |items|
    && Lookup(items[i], keyField) == keyValue
    && forall j :: 0 <= j < i ==> Lookup(items[j], keyField) != keyValue
  }

  /** The scan yields the name field of the first record whose key field equals the key value, or "Не найдено". */
  lemma {:induction false} FirstNameSpec(items: seq<Record>, keyField: string, keyValue: Option<Value>, nameField: string)
    ensures (forall i :: 0 <= i < |items| ==> Lookup(items[i], keyField) != keyValue) ==>
      FirstName(items, keyField, keyValue, nameField) == Some(Text(NotFound))
    ensures forall i :: FirstMatchAt(items, keyField, keyValue, i) ==>
      FirstName(items, keyField, keyValue, nameField) == Lookup(items[i], nameField)
    decreases |items|
  {
    if items != [] {
      FirstNameSpec(items[1..], keyField, keyValue, nameField);
      forall i | FirstMatchAt(items, keyField, keyValue, i) && i > 0
        ensures FirstMatchAt(items[1..], keyField, keyValue, i - 1)
      {
        assert items[1..][i - 1] == items[i];
        forall j | 0 <= j < i - 1 ensures Lookup(items[1..][j], keyField) != keyValue {
          assert items[1..][j] == items[j + 1];
        }
      }
    }
  }

  /**
    `resolve_name` returns the `nameField` of the first record of the dataset whose `keyField`
    equals `keyValue` (None when that record lacks the field), and the text "Не найдено" when the
    dataset has no `value` list or no record matches. A missing key field compares as None, so a
    None key value matches the first record without that field.
   */
  lemma ResolveNameSpec(dataset: Envelope, keyField: string, keyValue: Option<Value>, nameField: string)
    ensures dataset.value.None? ==> ResolveName(dataset, keyField, keyValue, nameField) == Some(Text(NotFound))
    ensures var items := Records(dataset);
      (forall i :: 0 <= i < |items| ==> Lookup(items[i], keyField) != keyValue) ==>
      ResolveName(dataset, keyField, keyValue, nameField) == Some(Text(NotFound))
    ensures var items := Records(dataset);
      forall i :: FirstMatchAt(items, keyField, keyValue, i) ==>
      ResolveName(dataset, keyField, keyValue, nameField) == Lookup(items[i], nameField)
  {
    FirstNameSpec(Records(dataset), keyField, keyValue, nameField);
  }

  /** Records after a match are never consulted: appending records to a list that already matches changes nothing. */
  lemma {:induction false} FirstMatchWins(a: seq<Record>, b: seq<Record>, keyField: string, keyValue: Option<Value>, nameField: string)
    requires exists i :: 0 <= i < |a| && Lookup(a[i], keyField) == keyValue
    ensures FirstName(a + b, keyField, keyValue, nameField) == FirstName(a, keyField, keyValue, nameField)
    decreases |a|
  {
    assert (a + b)[0] == a[0];
    if Lookup(a[0], keyField) != keyValue {
      var i :| 0 <= i < |a| && Lookup(a[i], keyField) == keyValue;
      assert a[1..][i - 1] == a[i];
      assert (a + b)[1..] == a[1..] + b;
      FirstMatchWins(a[1..], b, keyField, keyValue, nameField);
    }
  }

  // ----- the plain listing (`display`) -----

  /** The optional column mapping of `display`: (label, field) pairs in the dictionary's order; empty for none. */
  type Mapping = seq<(string, string)>

  function Header(title: string): string
  {
    "=== " + title + " ==="
  }

  /** Records whose `Description` the listing can show: absent or text. */
  predicate Titled(row: Record)
  {
    var d := Get(row, DescriptionKey);
    d.None? || d.value.Text?
  }

  /** `row.get("Description", "(без названия)")`. */
  function Title(row: Record): string
    requires Titled(row)
  {
    match Get(row, DescriptionKey)
    case None => Untitled
    case Some(Text(s)) => s
  }

  /** `row.get(field, '')` as formatted into the line: empty for a missing field. */
  function Column(row: Record, field: string): string
    requires Printable(Get(row, field))
  {
    if field in row then Show(Get(row, field)) else ""
  }

  /** Records that `display` can render with the given mapping. */
  predicate Listable(row: Record, mapping: Mapping)
  {
    Titled(row) && forall k :: 0 <= k < |mapping| ==> Printable(Get(row, mapping[k].1))
  }

  /** The `label: value` entries of one line. */
  function Columns(row: Record, mapping: Mapping): seq<string>
    requires Listable(row, mapping)
  {
    seq(|mapping|, k requires 0 <= k < |mapping| => mapping[k].0 + ": " + Column(row, mapping[k].1))
  }

  /** One line of the listing: it starts with the record's title and is only the title without a mapping. */
  function RowLine(row: Record, mapping: Mapping): (line: string)
    requires Listable(row, mapping)
    ensures Title(row) <= line
    ensures mapping == [] <==> line == Title(row)
  {
    Title(row) + (if mapping == [] then "" else " | " + Join(Columns(row, mapping), ", "))
  }

  /** The lines of the listing's body: one per record, in the records' order. */
  function RowLines(rows: seq<Record>, mapping: Mapping): (lines: seq<string>)
    requires forall i :: 0 <= i < |rows| ==> Listable(rows[i], mapping)
    ensures |lines| == |rows|
    ensures forall i :: 0 <= i < |rows| ==> lines[i] == RowLine(rows[i], mapping)
    decreases |rows|
  {
    if rows == [] then []
    else RowLines(rows[..|rows| - 1], mapping) + [RowLine(rows[|rows| - 1], mapping)]
  }

  /** Every record renders with the mapping. */
  predicate AllListable(rows: seq<Record>, mapping: Mapping)
  {
    forall i :: 0 <= i < |rows| ==> Listable(rows[i], mapping)
  }

  /** What `display` needs of its input: every record of a fetched body renders with the mapping. */
  predicate Displayable(items: Fetch, mapping: Mapping)
  {
    items.Ok? ==> AllListable(Records(items.body), mapping)
  }

  /** The text `display` writes to the widget. */
  function DisplayText(title: string, items: Fetch, mapping: Mapping): string
    requires Displayable(items, mapping)
  {
    match items
    case Err(msg) => msg
    case Ok(Envelope(None)) => NoData
    case Ok(Envelope(Some(rows))) => Join([Header(title)] + RowLines(rows, mapping), "\n")
  }

  /** One more record adds its line at the end: the step of `display`'s loop. */
  lemma RowLinesStep(rows: seq<Record>, i: nat, mapping: Mapping)
    requires AllListable(rows, mapping) && i < |rows|
    ensures AllListable(rows[..i + 1], mapping)
    ensures RowLines(rows[..i + 1], mapping) == RowLines(rows[..i], mapping) + [RowLine(rows[i], mapping)]
  {
    assert rows[..i + 1][..i] == rows[..i];
  }

  /** A record whose line holds no line break. */
  predicate SingleLine(row: Record, mapping: Mapping)
    requires Listable(row, mapping)
  {
    && '\n' !in Title(row)
    && forall k :: 0 <= k < |mapping| ==> '\n' !in mapping[k].0 && '\n' !in Column(row, mapping[k].1)
  }

  lemma RowLineSingle(row: Record, mapping: Mapping)
    requires Listable(row, mapping) && SingleLine(row, mapping)
    ensures '\n' !in RowLine(row, mapping)
  {
    var cols := Columns(row, mapping);
    forall k | 0 <= k < |cols| ensures '\n' !in cols[k] {
      assert cols[k] == mapping[k].0 + ": " + Column(row, mapping[k].1);
    }
    JoinAvoids(cols, ", ", '\n');
  }

  /**
    A listing of a `value` list has one header line `=== title ===` and then exactly one line per
    record, in the records' order, each starting with the record's title.
   */
  lemma ListingLines(title: string, rows: seq<Record>, mapping: Mapping)
    requires AllListable(rows, mapping)
    requires '\n' !in title
    requires forall i :: 0 <= i < |rows| ==> SingleLine(rows[i], mapping)
    ensures var lines := Split(DisplayText(title, Ok(Envelope(Some(rows))), mapping), '\n');
      && |lines| == |rows| + 1
      && lines[0] == Header(title)
      && forall i :: 0 <= i < |rows| ==> lines[i + 1] == RowLine(rows[i], mapping) && Title(rows[i]) <= lines[i + 1]
  {
    var body := RowLines(rows, mapping);
    var all := [Header(title)] + body;
    assert DisplayText(title, Ok(Envelope(Some(rows))), mapping) == Join(all, "\n");
    assert '\n' !in Header(title);
    forall k | 0 <= k < |body| ensures '\n' !in body[k] {
      RowLineSingle(rows[k], mapping);
    }
    assert forall k :: 0 <= k < |all| ==> all[k] == if k == 0 then Header(title) else body[k - 1];
    SplitJoin(all, '\n');
  }

  // ----- the booking report (`load_bookings`) -----

  /** The text of one booking between the template's outer line breaks: four labelled lines and the separator. */
  function Template(room: string, entry: string, exit: string, guests: string): (t: string)
    ensures "Номер: " <= t
    ensures |Separator| <= |t| && t[|t| - |Separator|..] == Separator
  {
    "Номер: " + room + "\n" +
    Indent + "Заезд: " + entry + "\n" +
    Indent + "Выезд: " + exit + "\n" +
    Indent + "Гости: " + guests + "\n" +
    Indent + Separator
  }

  /** Without line breaks in the values, the template text is exactly its five lines. */
  lemma TemplateLines(room: string, entry: string, exit: string, guests: string)
    requires '\n' !in room && '\n' !in entry && '\n' !in exit && '\n' !in guests
    ensures Split(Template(room, entry, exit, guests), '\n') == [
      "Номер: " + room,
      Indent + "Заезд: " + entry,
      Indent + "Выезд: " + exit,
      Indent + "Гости: " + guests,
      Indent + Separator]
  {
    var l0 := "Номер: " + room;
    var l1 := Indent + "Заезд: " + entry;
    var l2 := Indent + "Выезд: " + exit;
    var l3 := Indent + "Гости: " + guests;
    var l4 := Indent + Separator;
    Regroup(l0 + "\n", Indent, "Заезд: ", entry);
    Regroup(l0 + "\n" + l1 + "\n", Indent, "Выезд: ", exit);
    Regroup(l0 + "\n" + l1 + "\n" + l2 + "\n", Indent, "Гости: ", guests);
    assert l0 + "\n" + l1 + "\n" + l2 + "\n" + l3 + "\n" + Indent + Separator ==
      l0 + "\n" + l1 + "\n" + l2 + "\n" + l3 + "\n" + l4;
    SplitFive(l0, l1, l2, l3, l4, '\n');
  }

  /** A date field the report can cut: absent or text. */
  predicate DateField(b: Record, key: string)
  {
    var v := Get(b, key);
    v.None? || v.value.Text?
  }

  /** `b.get(key, "")[:10]`: the date part of an ISO date-time, the whole text when shorter, empty when absent. */
  function DatePart(b: Record, key: string): (d: string)
    requires DateField(b, key)
    ensures key !in b ==> d == ""
    ensures key in b ==> d == Slice(b[key].s, 10)
  {
    match Get(b, key)
    case None => Slice("", 10)
    case Some(Text(s)) => Slice(s, 10)
  }

  /** A booking's guest list the report can walk: absent or a list of records. */
  predicate HasGuestList(b: Record)
  {
    var v := Get(b, GuestListKey);
    v.None? || v.value.Rows?
  }

  /** `b.get("Гость", [])`. */
  function GuestRefs(b: Record): seq<Record>
    requires HasGuestList(b)
  {
    match Get(b, GuestListKey)
    case None => []
    case Some(Rows(rs)) => rs
  }

  /** The room of a booking, resolved by its room key against the rooms' `Ref_Key`. */
  function RoomName(b: Record, rooms: Envelope): Option<Value>
  {
    ResolveName(rooms, RefKey, Lookup(b, RoomRefKey), DescriptionKey)
  }

  /** A guest reference, resolved by its guest key against the guests' `Ref_Key`. */
  function GuestName(g: Record, guests: Envelope): Option<Value>
  {
    ResolveName(guests, RefKey, Lookup(g, GuestRefKey), DescriptionKey)
  }

  /**
    A booking whose room key is missing or null resolves to the first room, when that room's
    `Ref_Key` is missing or null too: Python sees None on both sides of the comparison.
   */
  lemma NullKeysMatch(b: Record, room: Record, rest: seq<Record>)
    requires RoomRefKey !in b || b[RoomRefKey] == Null
    requires RefKey !in room || room[RefKey] == Null
    ensures RoomName(b, Envelope(Some([room] + rest))) == Lookup(room, DescriptionKey)
  {
    assert ([room] + rest)[0] == room;
  }

  /** Names that `", ".join` accepts: text. */
  predicate Named(v: Option<Value>)
  {
    v.Some? && v.value.Text?
  }

  predicate GuestsNamed(refs: seq<Record>, guests: Envelope)
  {
    forall k :: 0 <= k < |refs| ==> Named(GuestName(refs[k], guests))
  }

  /** The resolved guest names: one per reference, in the references' order. */
  function GuestNames(refs: seq<Record>, guests: Envelope): (names: seq<string>)
    requires GuestsNamed(refs, guests)
    ensures |names| == |refs|
    ensures forall k :: 0 <= k < |refs| ==> Some(Text(names[k])) == GuestName(refs[k], guests)
    decreases |refs|
  {
    if refs == [] then []
    else GuestNames(refs[..|refs| - 1], guests) + [GuestName(refs[|refs| - 1], guests).value.s]
  }

  /** One more reference adds its resolved name at the end: the step of the guest loop of `load_bookings`. */
  lemma GuestNamesStep(refs: seq<Record>, j: nat, guests: Envelope)
    requires GuestsNamed(refs, guests) && j < |refs|
    ensures GuestsNamed(refs[..j + 1], guests)
    ensures GuestNames(refs[..j + 1], guests) == GuestNames(refs[..j], guests) + [GuestName(refs[j], guests).value.s]
  {
    assert refs[..j + 1][..j] == refs[..j];
  }

  /** The guest line of a booking: the names joined by ", ", or "Нет данных" when there are none. */
  function GuestsText(refs: seq<Record>, guests: Envelope): string
    requires GuestsNamed(refs, guests)
  {
    var names := GuestNames(refs, guests);
    if names != [] then Join(names, ", ") else NoGuests
  }

  /** What the report needs of a booking: its fields and references have the shapes it formats. */
  predicate Bookable(b: Record, rooms: Envelope, guests: Envelope)
  {
    && DateField(b, EntryKey)
    && DateField(b, ExitKey)
    && HasGuestList(b)
    && Printable(RoomName(b, rooms))
    && GuestsNamed(GuestRefs(b), guests)
  }

  predicate AllBookable(bookings: seq<Record>, rooms: Envelope, guests: Envelope)
  {
    forall i :: 0 <= i < |bookings| ==> Bookable(bookings[i], rooms, guests)
  }

  /** One booking's text: its resolved room, cut dates and guest line in the template. */
  function BookingBody(b: Record, rooms: Envelope, guests: Envelope): string
    requires Bookable(b, rooms, guests)
  {
    Template(Show(RoomName(b, rooms)), DatePart(b, EntryKey), DatePart(b, ExitKey), GuestsText(GuestRefs(b), guests))
  }

  /** The bookings' texts, one per booking in order. */
  function Bodies(bookings: seq<Record>, rooms: Envelope, guests: Envelope): seq<string>
    requires AllBookable(bookings, rooms, guests)
  {
    seq(|bookings|, i requires 0 <= i < |bookings| => BookingBody(bookings[i], rooms, guests))
  }

  /** The text of one booking in the report begins with the room label and ends with the separator line. */
  lemma BodyAt(bookings: seq<Record>, i: nat, rooms: Envelope, guests: Envelope)
    requires AllBookable(bookings, rooms, guests) && i < |bookings|
    ensures var body := Bodies(bookings, rooms, guests)[i];
      && "Номер: " <= body
      && |Separator| <= |body| && body[|body| - |Separator|..] == Separator
  {
    assert Bodies(bookings, rooms, guests)[i] == BookingBody(bookings[i], rooms, guests);
  }

  /** One more booking frames its text at the end: the step of the booking loop of `load_bookings`. */
  lemma FramedStep(bookings: seq<Record>, i: nat, rooms: Envelope, guests: Envelope)
    requires AllBookable(bookings, rooms, guests) && i < |bookings|
    ensures AllBookable(bookings[..i + 1], rooms, guests)
    ensures Surround(Bodies(bookings[..i + 1], rooms, guests), BlockBreak) ==
      Surround(Bodies(bookings[..i], rooms, guests), BlockBreak) + BlockBreak + BookingBody(bookings[i], rooms, guests) + BlockBreak
  {
    var done := bookings[..i + 1];
    assert done[..i] == bookings[..i];
    var body := BookingBody(bookings[i], rooms, guests);
    assert Bodies(done, rooms, guests) == Bodies(bookings[..i], rooms, guests) + [body];
    SurroundSnoc(Bodies(bookings[..i], rooms, guests), body, BlockBreak);
  }

  /**
    The text `load_bookings` writes once the bookings were fetched: each booking's text between two
    template line breaks (`result_text` after the loop), stripped.
   */
  function BookingsReport(bookings: seq<Record>, rooms: Envelope, guests: Envelope): string
    requires AllBookable(bookings, rooms, guests)
  {
    Strip(Surround(Bodies(bookings, rooms, guests), BlockBreak))
  }

  /** The empty template line that separates two consecutive bookings in the report. */
  const Gap := BlockBreak + BlockBreak

  /** Stripping framed texts, the first starting with the room label and the last ending with the separator, joins them with the empty template line. */
  lemma StripFramedJoin(bodies: seq<string>)
    requires bodies != []
    requires "Номер: " <= bodies[0]
    requires var z := bodies[|bodies| - 1]; |Separator| <= |z| && z[|z| - |Separator|..] == Separator
    ensures Strip(Surround(bodies, BlockBreak)) == Join(bodies, Gap)
    ensures Join(bodies, Gap) != ""
  {
    var x := Join(bodies, Gap);
    SurroundJoin(bodies, BlockBreak);
    JoinStartsWith(bodies, Gap);
    JoinEndsWith(bodies, Gap);
    var z := bodies[|bodies| - 1];
    assert z[|z| - 1] == Separator[|Separator| - 1] == '-';
    assert x[|x| - 1] == z[|z| - 1];
    assert x[0] == bodies[0][0] == 'Н';
    assert forall i :: 0 <= i < |BlockBreak| ==> IsSpace(BlockBreak[i]);
    StripFramed(BlockBreak, x, BlockBreak);
  }

  /**
    The stripped report is the bookings' texts in fetch order, separated by an empty template
    line: exactly one text per booking, and the empty text when there are no bookings.
   */
  lemma BookingsReportBodies(bookings: seq<Record>, rooms: Envelope, guests: Envelope)
    requires AllBookable(bookings, rooms, guests)
    ensures BookingsReport(bookings, rooms, guests) == Join(Bodies(bookings, rooms, guests), Gap)
    ensures BookingsReport(bookings, rooms, guests) == "" <==> bookings == []
  {
    var bodies := Bodies(bookings, rooms, guests);
    if bookings == [] {
      assert Surround(bodies, BlockBreak) == "";
    } else {
      BodyAt(bookings, 0, rooms, guests);
      BodyAt(bookings, |bookings| - 1, rooms, guests);
      StripFramedJoin(bodies);
    }
  }

  /** A booking whose resolved and copied fields hold no line break. */
  predicate SingleLineBooking(b: Record, rooms: Envelope, guests: Envelope)
    requires Bookable(b, rooms, guests)
  {
    && '\n' !in Show(RoomName(b, rooms))
    && '\n' !in DatePart(b, EntryKey)
    && '\n' !in DatePart(b, ExitKey)
    && '\n' !in GuestsText(GuestRefs(b), guests)
  }

  /** Each booking's text is exactly the four labelled lines and the separator line. */
  lemma BookingBodyLines(b: Record, rooms: Envelope, guests: Envelope)
    requires Bookable(b, rooms, guests)
    requires SingleLineBooking(b, rooms, guests)
    ensures Split(BookingBody(b, rooms, guests), '\n') == [
      "Номер: " + Show(RoomName(b, rooms)),
      Indent + "Заезд: " + DatePart(b, EntryKey),
      Indent + "Выезд: " + DatePart(b, ExitKey),
      Indent + "Гости: " + GuestsText(GuestRefs(b), guests),
      Indent + Separator]
  {
    TemplateLines(Show(RoomName(b, rooms)), DatePart(b, EntryKey), DatePart(b, ExitKey), GuestsText(GuestRefs(b), guests));
  }

  /** The i-th text of the report belongs to the i-th booking, in fetch order: its four labelled lines and the separator. */
  lemma ReportBlockLines(bookings: seq<Record>, i: nat, rooms: Envelope, guests: Envelope)
    requires AllBookable(bookings, rooms, guests) && i < |bookings|
    requires SingleLineBooking(bookings[i], rooms, guests)
    ensures |Bodies(bookings, rooms, guests)| == |bookings|
    ensures var b := bookings[i];
      Split(Bodies(bookings, rooms, guests)[i], '\n') == [
        "Номер: " + Show(RoomName(b, rooms)),
        Indent + "Заезд: " + DatePart(b, EntryKey),
        Indent + "Выезд: " + DatePart(b, ExitKey),
        Indent + "Гости: " + GuestsText(GuestRefs(b), guests),
        Indent + Separator]
  {
    assert Bodies(bookings, rooms, guests)[i] == BookingBody(bookings[i], rooms, guests);
    BookingBodyLines(bookings[i], rooms, guests);
  }

  // ----- the room filter (`load_rooms`) -----

  /** Candidate k is the first of the candidates found among the keys. */
  predicate FirstPresentAt(candidates: seq<string>, keys: set<string>, k: int)
  {
    && 0 <= k < |candidates|
    && candidates[k] in keys
    && forall j :: 0 <= j < k ==> candidates[j] !in keys
  }

  /** The first of the candidate field names that is among the keys, if any. */
  function FirstPresent(candidates: seq<string>, keys: set<string>): (f: Option<string>)
    ensures f.None? <==> forall k :: 0 <= k < |candidates| ==> candidates[k] !in keys
    ensures forall k :: FirstPresentAt(candidates, keys, k) ==> f == Some(candidates[k])
    decreases |candidates|
  {
    if candidates == [] then None
    else if candidates[0] in keys then Some(candidates[0])
    else FirstPresent(candidates[1..], keys)
  }

  /** The comprehension `[r for r in rooms if r.get(field) == selected]`. */
  function FilterRooms(rooms: seq<Record>, field: string, selected: string): (kept: seq<Record>)
    ensures |kept| <= |rooms|
    ensures forall r :: r in kept <==> r in rooms && Get(r, field) == Some(Text(selected))
    decreases |rooms|
  {
    if rooms == [] then []
    else
      var head := if Get(rooms[0], field) == Some(Text(selected)) then [rooms[0]] else [];
      head + FilterRooms(rooms[1..], field, selected)
  }

  /** The filter keeps the rooms' order: filtering a concatenation concatenates the filtered parts. */
  lemma {:induction false} FilterRoomsConcat(a: seq<Record>, b: seq<Record>, field: string, selected: string)
    ensures FilterRooms(a + b, field, selected) == FilterRooms(a, field, selected) + FilterRooms(b, field, selected)
    decreases |a|
  {
    if a == [] {
      assert a + b == b;
    } else {
      assert (a + b)[0] == a[0] && (a + b)[1..] == a[1..] + b;
      FilterRoomsConcat(a[1..], b, field, selected);
    }
  }

  /** Every room has a text or no description. */
  predicate AllTitled(rooms: seq<Record>)
  {
    forall i :: 0 <= i < |rooms| ==> Titled(rooms[i])
  }

  /**
    What `load_rooms` needs of a successful fetch: the rooms it lists have a text or no
    description. Those are all rooms without a prestige field, and only the kept rooms with one.
   */
  predicate RoomsShowable(selected: string, data: Fetch)
  {
    data.Ok? ==>
      var rooms := Records(data.body);
      match PrestigeOf(rooms)
      case None => AllTitled(rooms)
      case Some(field) => AllTitled(FilterRooms(rooms, field, selected))
  }

  /** The prestige field `load_rooms` probes for: the first candidate among the first room's keys; none without rooms. */
  function PrestigeOf(rooms: seq<Record>): Option<string>
  {
    if rooms == [] then None else FirstPresent(PrestigeCandidates, rooms[0].Keys)
  }

  /** The kept rooms render with the one-column mapping, their prestige field being the selected text. */
  lemma FilteredListable(rooms: seq<Record>, field: string, selected: string)
    requires AllTitled(FilterRooms(rooms, field, selected))
    ensures AllListable(FilterRooms(rooms, field, selected), [(field, field)])
  {
    var kept := FilterRooms(rooms, field, selected);
    forall i | 0 <= i < |kept| ensures Listable(kept[i], [(field, field)]) {
      assert kept[i] in kept;
    }
  }

  /** The text `load_rooms` writes for the selected prestige, given the rooms fetch. */
  function RoomsText(selected: string, data: Fetch): string
    requires RoomsShowable(selected, data)
  {
    match data
    case Err(msg) => msg
    case Ok(body) =>
      var rooms := Records(body);
      match PrestigeOf(rooms)
      case None => DisplayText(AllRoomsTitle, data, [])
      case Some(field) =>
        var kept := FilterRooms(rooms, field, selected);
        if kept == [] then NoRoomsPrefix + selected
        else
          FilteredListable(rooms, field, selected);
          DisplayText(RoomsTitlePrefix + selected, Ok(Envelope(Some(kept))), [(field, field)])
  }

  /**
    With a prestige field found, `load_rooms` reports "⚠ Нет номеров с престижем: <selected>"
    exactly when no room carries the selected value in that field.
   */
  lemma RoomsNoneMatch(selected: string, rooms: seq<Record>, field: string)
    requires PrestigeOf(rooms) == Some(field)
    requires AllTitled(FilterRooms(rooms, field, selected))
    ensures RoomsText(selected, Ok(Envelope(Some(rooms)))) == NoRoomsPrefix + selected <==>
      forall i :: 0 <= i < |rooms| ==> Get(rooms[i], field) != Some(Text(selected))
  {
    var kept := FilterRooms(rooms, field, selected);
    if kept == [] {
      forall i | 0 <= i < |rooms| ensures Get(rooms[i], field) != Some(Text(selected)) {
        assert rooms[i] in rooms;
      }
    } else {
      assert kept[0] in kept;
      FilteredListable(rooms, field, selected);
      var all := [Header(RoomsTitlePrefix + selected)] + RowLines(kept, [(field, field)]);
      var out := Join(all, "\n");
      assert RoomsText(selected, Ok(Envelope(Some(rooms)))) == out;
      JoinStartsWith(all, "\n");
      assert out[0] == '=';
      assert (NoRoomsPrefix + selected)[0] == '⚠';
    }
  }

  /** A kept room's line is its title, then the prestige field and the selected value. */
  lemma KeptRoomLine(row: Record, field: string, selected: string)
    requires Titled(row) && Get(row, field) == Some(Text(selected))
    ensures Listable(row, [(field, field)])
    ensures RowLine(row, [(field, field)]) == Title(row) + " | " + field + ": " + selected
  {
    var cols := Columns(row, [(field, field)]);
    assert cols == [field + ": " + selected];
  }

  /**
    When some rooms carry the selected prestige, `load_rooms` lists a header `=== Номера — <selected> ===`
    and then exactly one line `<title> | <field>: <selected>` per such room, in the rooms' order.
   */
  lemma RoomsMatchLines(selected: string, rooms: seq<Record>, field: string)
    requires PrestigeOf(rooms) == Some(field)
    requires FilterRooms(rooms, field, selected) != []
    requires AllTitled(FilterRooms(rooms, field, selected))
    requires '\n' !in selected && '\n' !in field
    requires var kept := FilterRooms(rooms, field, selected);
      forall i :: 0 <= i < |kept| ==> '\n' !in Title(kept[i])
    ensures var kept := FilterRooms(rooms, field, selected);
      var lines := Split(RoomsText(selected, Ok(Envelope(Some(rooms)))), '\n');
      && |lines| == |kept| + 1
      && lines[0] == Header(RoomsTitlePrefix + selected)
      && forall i :: 0 <= i < |kept| ==> lines[i + 1] == Title(kept[i]) + " | " + field + ": " + selected
  {
    var kept := FilterRooms(rooms, field, selected);
    var mapping := [(field, field)];
    FilteredListable(rooms, field, selected);
    forall i | 0 <= i < |kept|
      ensures SingleLine(kept[i], mapping) && RowLine(kept[i], mapping) == Title(kept[i]) + " | " + field + ": " + selected
    {
      assert kept[i] in kept;
      KeptRoomLine(kept[i], field, selected);
    }
    ListingLines(RoomsTitlePrefix + selected, kept, mapping);
  }

  /**
    Without rooms or without any candidate field in the first room, `load_rooms` shows the whole
    response under "Все номера": the header and one title line per room, in order.
   */
  lemma RoomsFallback(selected: string, rooms: seq<Record>)
    requires AllTitled(rooms)
    requires PrestigeOf(rooms) == None
    requires forall i :: 0 <= i < |rooms| ==> '\n' !in Title(rooms[i])
    ensures var lines := Split(RoomsText(selected, Ok(Envelope(Some(rooms)))), '\n');
      && |lines| == |rooms| + 1
      && lines[0] == Header(AllRoomsTitle)
      && forall i :: 0 <= i < |rooms| ==> lines[i + 1] == Title(rooms[i])
  {
    ListingLines(AllRoomsTitle, rooms, []);
  }
}
