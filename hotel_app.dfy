/**
  The HotelApp window as state: the text of its read-only output widget, and the URLs it has
  requested. The HTTP service is a parameter `server`, the result each request URL yields during
  one button press (an error text or a decoded body); the user's choice in the prestige combo box
  is a parameter too. Each button handler is proved to leave the text its specification function
  in module Hotel computes.
 */
module App {
  import opened Wrappers
  import opened Json
  import opened Strings
  import opened Hotel

  /** The body of a successful fetch; a failed fetch is never read where this stands for it. */
  function BodyOf(f: Fetch): Envelope
  {
    if f.Ok? then f.body else Envelope(None)
  }

  /**
    What `load_bookings` needs after a successful bookings fetch: the rooms fetch succeeded when
    there is a booking whose room gets resolved, the guests fetch succeeded when some booking has
    a guest reference to resolve, and every booking has the shape the report formats.
   */
  predicate BookingsLoadable(server: string -> Fetch)
  {
    var bookings := server(Url(BookingsSet));
    var rooms := server(Url(RoomsSet));
    var guests := server(Url(GuestsSet));
    bookings.Ok? ==>
      var all := Records(bookings.body);
      && (all != [] ==> rooms.Ok?)
      && (forall i :: 0 <= i < |all| ==> HasGuestList(all[i]) && (GuestRefs(all[i]) != [] ==> guests.Ok?))
      && AllBookable(all, BodyOf(rooms), BodyOf(guests))
  }

  /** Proof helper: three requests logged one after another are the three-element log entry. */
  lemma LogThree(log: seq<string>, a: string, b: string, c: string)
    ensures log + [a] + [b] + [c] == log + [a, b, c]
  {
  }

  class HotelApp {
    /** The text shown in the output widget. */
    var output: string
    /** The URLs requested so far, in order: an observation of the network calls. */
    ghost var requests: seq<string>

    constructor ()
      ensures output == "" && requests == []
    {
      output := "";
      requests := [];
    }

    /** `get_data`: request the entity set's URL and hand back what the service answered. */
    method GetData(endpoint: string, server: string -> Fetch) returns (data: Fetch)
      modifies this`requests
      ensures data == server(Url(endpoint))
      ensures requests == old(requests) + [Url(endpoint)]
    {
      var url := Url(endpoint);
      requests := requests + [url];
      data := server(url);
    }

    /** One line of `display`: the record's title, then its labelled columns when there is a mapping. */
    static method FormatRow(row: Record, mapping: Mapping) returns (text: string)
      requires Listable(row, mapping)
      ensures text == RowLine(row, mapping)
    {
      text := Title(row);
      if mapping != [] {
        text := text + " | " + Join(Columns(row, mapping), ", ");
      }
    }

    /** The loop of `display`: the header line, then one line per record in order. */
    static method ListRows(title: string, rows: seq<Record>, mapping: Mapping) returns (lines: seq<string>)
      requires AllListable(rows, mapping)
      ensures lines == [Header(title)] + RowLines(rows, mapping)
    {
      lines := [Header(title)];
      for i := 0 to |rows|
        invariant AllListable(rows[..i], mapping)
        invariant lines == [Header(title)] + RowLines(rows[..i], mapping)
      {
        var text := FormatRow(rows[i], mapping);
        RowLinesStep(rows, i, mapping);
        lines := lines + [text];
      }
      assert rows[..|rows|] == rows;
    }

    /**
      `display`: an error text is shown as it is, a body without `value` as "⚠ Нет данных",
      and otherwise the header line and one line per record.
     */
    method Display(title: string, items: Fetch, mapping: Mapping)
      requires Displayable(items, mapping)
      modifies this`output
      ensures items.Err? ==> output == items.msg
      ensures items.Ok? && items.body.value.None? ==> output == NoData
      ensures output == DisplayText(title, items, mapping)
    {
      if items.Err? {
        output := items.msg;
        return;
      }
      if items.body.value.None? {
        output := NoData;
        return;
      }
      var lines := ListRows(title, items.body.value.value, mapping);
      output := Join(lines, "\n");
    }

    /** `load_employees`: the employees listed with their position. */
    method LoadEmployees(server: string -> Fetch)
      requires Displayable(server(Url(EmployeesSet)), [(PositionKey, PositionKey)])
      modifies this
      ensures requests == old(requests) + [Url(EmployeesSet)]
      ensures output == DisplayText(EmployeesTitle, server(Url(EmployeesSet)), [(PositionKey, PositionKey)])
    {
      var data := GetData(EmployeesSet, server);
      Display(EmployeesTitle, data, [(PositionKey, PositionKey)]);
    }

    /** `load_guests`: the guests listed by name. */
    method LoadGuests(server: string -> Fetch)
      requires Displayable(server(Url(GuestsSet)), [])
      modifies this
      ensures requests == old(requests) + [Url(GuestsSet)]
      ensures output == DisplayText(GuestsTitle, server(Url(GuestsSet)), [])
    {
      var data := GetData(GuestsSet, server);
      Display(GuestsTitle, data, []);
    }

    /**
      The text of one booking in `load_bookings`: its room resolved by name, the two dates cut to
      their first ten characters, and the guests resolved by name one by one.
     */
    static method FormatBooking(b: Record, rooms: Envelope, guests: Envelope) returns (body: string)
      requires Bookable(b, rooms, guests)
      ensures body == BookingBody(b, rooms, guests)
    {
      var roomName := ResolveName(rooms, RefKey, Lookup(b, RoomRefKey), DescriptionKey);
      var entryDate := DatePart(b, EntryKey);
      var exitDate := DatePart(b, ExitKey);
      var refs := GuestRefs(b);
      var guestList: seq<string> := [];
      for j := 0 to |refs|
        invariant GuestsNamed(refs[..j], guests)
        invariant guestList == GuestNames(refs[..j], guests)
      {
        var guestName := ResolveName(guests, RefKey, Lookup(refs[j], GuestRefKey), DescriptionKey);
        GuestNamesStep(refs, j, guests);
        guestList := guestList + [guestName.value.s];
      }
      assert refs[..|refs|] == refs;
      var guestsFormatted := if guestList != [] then Join(guestList, ", ") else NoGuests;
      body := Template(Show(roomName), entryDate, exitDate, guestsFormatted);
    }

    /** The loop of `load_bookings`: each booking's text framed by a template line break on both sides, in order. */
    static method FrameBookings(bookings: seq<Record>, rooms: Envelope, guests: Envelope) returns (resultText: string)
      requires AllBookable(bookings, rooms, guests)
      ensures resultText == Surround(Bodies(bookings, rooms, guests), BlockBreak)
    {
      resultText := "";
      for i := 0 to |bookings|
        invariant AllBookable(bookings[..i], rooms, guests)
        invariant resultText == Surround(Bodies(bookings[..i], rooms, guests), BlockBreak)
      {
        var body := FormatBooking(bookings[i], rooms, guests);
        // The triple-quoted block: a line break and the indentation, the booking's text, a line break and the indentation.
        resultText := resultText + BlockBreak + body + BlockBreak;
        FramedStep(bookings, i, rooms, guests);
      }
      assert bookings[..|bookings|] == bookings;
    }

    /**
      `load_bookings`: on a failed bookings fetch its error text is shown and nothing else is
      requested; otherwise rooms and guests are fetched and the stripped booking report is shown.
     */
    method LoadBookings(server: string -> Fetch)
      requires BookingsLoadable(server)
      modifies this
      ensures server(Url(BookingsSet)).Err? ==>
        && requests == old(requests) + [Url(BookingsSet)]
        && output == server(Url(BookingsSet)).msg
      ensures server(Url(BookingsSet)).Ok? ==>
        && requests == old(requests) + [Url(BookingsSet), Url(RoomsSet), Url(GuestsSet)]
        && output == BookingsReport(Records(server(Url(BookingsSet)).body), BodyOf(server(Url(RoomsSet))), BodyOf(server(Url(GuestsSet))))
    {
      var data := GetData(BookingsSet, server);
      if data.Err? {
        output := data.msg;
        return;
      }
      var bookings := Records(data.body);
      var rooms := GetData(RoomsSet, server);
      var guests := GetData(GuestsSet, server);
      LogThree(old(requests), Url(BookingsSet), Url(RoomsSet), Url(GuestsSet));
      var resultText := FrameBookings(bookings, BodyOf(rooms), BodyOf(guests));
      output := Strip(resultText);
    }

    /**
      `load_rooms`: probe the first room's fields for a prestige field; with one, show the rooms
      whose field is the selected value (or a message when none is); without one, show all rooms.
     */
    method LoadRooms(selectedType: string, server: string -> Fetch)
      requires RoomsShowable(selectedType, server(Url(RoomsSet)))
      modifies this
      ensures requests == old(requests) + [Url(RoomsSet)]
      ensures output == RoomsText(selectedType, server(Url(RoomsSet)))
    {
      var data := GetData(RoomsSet, server);
      if data.Err? {
        output := data.msg;
        return;
      }
      var rooms := Records(data.body);
      var prestigeField: Option<string> := None;
      if rooms != [] {
        var keys := rooms[0].Keys;
        for i := 0 to |PrestigeCandidates|
          invariant prestigeField == None
          invariant FirstPresent(PrestigeCandidates[i..], keys) == FirstPresent(PrestigeCandidates, keys)
        {
          if PrestigeCandidates[i] in keys {
            prestigeField := Some(PrestigeCandidates[i]);
            break;
          }
          assert PrestigeCandidates[i..][1..] == PrestigeCandidates[i + 1..];
        }
      }
      assert prestigeField == PrestigeOf(rooms);
      match prestigeField {
        case Some(field) =>
          var filtered := FilterRooms(rooms, field, selectedType);
          if filtered != [] {
            FilteredListable(rooms, field, selectedType);
            Display(RoomsTitlePrefix + selectedType, Ok(Envelope(Some(filtered))), [(field, field)]);
          } else {
            output := NoRoomsPrefix + selectedType;
          }
        case None =>
          Display(AllRoomsTitle, data, []);
      }
    }
  }
}
