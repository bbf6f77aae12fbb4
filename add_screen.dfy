/**
 * The decision logic of the add-booking screen with the rendering stripped
 * away: the Save button's validation, the text of the date field, the OK
 * button of the date-range dialog and the handler that takes the chosen range.
 * The clock and the conversion from epoch milliseconds to a local date are
 * parameters.
 */
module AddUi {
  import opened Model
  import opened Options
  import opened DateText
  import opened ViewModel

  /**
   * Kotlin's `Char.isWhitespace` on the JVM: Java's whitespace characters
   * together with the Unicode space, line and paragraph separators.
   */
  predicate IsWhitespace(c: char) {
    ('\t' <= c <= '\r') || ('\U{1C}' <= c <= '\U{1F}') || c == ' ' || c == '\U{A0}'
    || c == '\U{1680}' || ('\U{2000}' <= c <= '\U{200A}') || c == '\U{2028}' || c == '\U{2029}'
    || c == '\U{202F}' || c == '\U{205F}' || c == '\U{3000}'
  }

  /** Kotlin's `isBlank`: empty or whitespace only. */
  predicate IsBlank(s: string): (b: bool)
    ensures s == "" ==> b
    ensures b <==> forall c | c in s :: IsWhitespace(c)
  {
    forall i :: 0 <= i < |s| ==> IsWhitespace(s[i])
  }

  /** The screen's remembered state. */
  datatype Form = Form(
    name: string,
    arrivalDate: Option<Date>,
    departureDate: Option<Date>,
    showDateRangePicker: bool)

  /** The state when the screen is first composed. */
  const InitialForm := Form("", None, None, false)

  /** Milliseconds in a day: how far back the dialog still accepts a date. */
  const DayMillis := 86_400_000

  /** The text of the read-only date field. */
  function DateFieldText(arrivalDate: Option<Date>, departureDate: Option<Date>): (t: string)
    ensures t == "" <==> arrivalDate.None? || departureDate.None?
  {
    if arrivalDate.Some? && departureDate.Some? then
      FormatDate(arrivalDate.value) + " - " + FormatDate(departureDate.value)
    else
      ""
  }

  /** Reads a date-field text back into the pair of dates it shows. */
  function ParseDateField(t: string): Option<(Date, Date)> {
    if |t| == 23 && t[10..13] == " - " then
      var a, d := ParseDate(t[..10]), ParseDate(t[13..]);
      if a.Some? && d.Some? then Some((a.value, d.value)) else None
    else
      None
  }

  /**
   * The date field shows both dates, in order, whenever both are set (for
   * four-digit years), and nothing otherwise.
   */
  lemma DateFieldRoundTrip(arrivalDate: Option<Date>, departureDate: Option<Date>)
    requires arrivalDate.Some? ==> FourDigitYear(arrivalDate.value)
    requires departureDate.Some? ==> FourDigitYear(departureDate.value)
    ensures ParseDateField(DateFieldText(arrivalDate, departureDate)) ==
      if arrivalDate.Some? && departureDate.Some? then Some((arrivalDate.value, departureDate.value))
      else None
  {
    if arrivalDate.Some? && departureDate.Some? {
      var a, d := FormatDate(arrivalDate.value), FormatDate(departureDate.value);
      FormatDateRoundTrip(arrivalDate.value);
      FormatDateRoundTrip(departureDate.value);
      var t := a + " - " + d;
      assert t[..10] == a && t[10..13] == " - " && t[13..] == d;
    }
  }

  /** What a click on Save leads to: one of three messages, or a new entry. */
  datatype SaveOutcome =
    | FillAllFields
    | SelectDateRange
    | NameCantBeEmpty
    | Added(entry: BookingEntry)

  /** The Save button's if / else-if chain. */
  function DecideSave(f: Form): (o: SaveOutcome)
    ensures o.Added? <==> !IsBlank(f.name) && f.arrivalDate.Some? && f.departureDate.Some?
    ensures o.Added? ==> o.entry == BookingEntry(f.arrivalDate.value, f.departureDate.value, f.name)
  {
    if IsBlank(f.name) && (f.arrivalDate.None? || f.departureDate.None?) then FillAllFields
    else if f.arrivalDate.None? || f.departureDate.None? then SelectDateRange
    else if IsBlank(f.name) then NameCantBeEmpty
    else Added(BookingEntry(f.arrivalDate.value, f.departureDate.value, f.name))
  }

  /** The message shown for an outcome; a successful save shows none. */
  function ToastMessage(o: SaveOutcome): (m: Option<string>)
    ensures m.None? <==> o.Added?
    ensures m.Some? ==> |m.value| > 0
  {
    match o
    case FillAllFields => Some("Please fill all the fields")
    case SelectDateRange => Some("Please select a date range")
    case NameCantBeEmpty => Some("Name cant be empty")
    case Added(_) => None
  }

  /**
   * The chain read as a table over its two questions, "is the name blank?" and
   * "is a date missing?": each of the four answers has its own outcome, and
   * only a non-blank name with both dates adds, with exactly the form's values.
   */
  lemma SaveDecisionTable(f: Form)
    ensures var nameMissing, rangeMissing := IsBlank(f.name), f.arrivalDate.None? || f.departureDate.None?;
      && (DecideSave(f) == FillAllFields <==> nameMissing && rangeMissing)
      && (DecideSave(f) == SelectDateRange <==> !nameMissing && rangeMissing)
      && (DecideSave(f) == NameCantBeEmpty <==> nameMissing && !rangeMissing)
      && (DecideSave(f).Added? <==> !nameMissing && !rangeMissing)
      && (DecideSave(f).Added? ==>
            DecideSave(f).entry == BookingEntry(f.arrivalDate.value, f.departureDate.value, f.name))
      && (ToastMessage(DecideSave(f)).None? <==> DecideSave(f).Added?)
  {
  }

  /**
   * The Save click as a transition of the form and the store's list: a
   * complete form is appended and cleared, anything else changes nothing.
   */
  function SaveStep(f: Form, entries: seq<BookingEntry>): (r: (Form, seq<BookingEntry>))
    ensures entries <= r.1 && |r.1| <= |entries| + 1
    ensures |r.1| == |entries| + 1 <==> DecideSave(f).Added?
    ensures r.0 == f <==> !DecideSave(f).Added?
    ensures r.0.showDateRangePicker == f.showDateRangePicker
  {
    match DecideSave(f)
    case Added(e) => (f.(name := "", arrivalDate := None, departureDate := None), entries + [e])
    case _ => (f, entries)
  }

  /** Every stored entry has a non-blank name. */
  predicate AllNamed(entries: seq<BookingEntry>) {
    forall i :: 0 <= i < |entries| ==> !IsBlank(entries[i].name)
  }

  /**
   * The store does not check names, but the only caller that adds does: if
   * every entry came in through Save, and deletes are the only other change,
   * every stored name is non-blank.
   */
  lemma SaveKeepsNamesNonBlank(f: Form, entries: seq<BookingEntry>, gone: BookingEntry)
    requires AllNamed(entries)
    ensures AllNamed(SaveStep(f, entries).1)
    ensures AllNamed(Without(entries, gone))
  {
    var r := Without(entries, gone);
    forall i | 0 <= i < |r| ensures !IsBlank(r[i].name) {
      assert r[i] in entries;
    }
  }

  /**
   * Clicking Save twice adds at most once: after a successful save the form
   * is blank, so the second click only asks to fill all the fields.
   */
  lemma SaveTwice(f: Form, entries: seq<BookingEntry>)
    ensures var (f1, e1) := SaveStep(f, entries);
      SaveStep(f1, e1) == (f1, e1) &&
      (DecideSave(f).Added? ==> DecideSave(f1) == FillAllFields)
  {
    var (f1, e1) := SaveStep(f, entries);
    if DecideSave(f).Added? {
      assert IsBlank(f1.name);
    }
  }

  /** What the dialog's OK button does with the range the picker holds. */
  datatype ConfirmOutcome =
    | KeepOpen
    | Forward(start: Option<int>, end: Option<int>)

  /**
   * The OK button: a chosen start or end more than a day before `now` keeps
   * the dialog open; otherwise the range is passed on as it is.
   */
  function DecideConfirm(now: int, start: Option<int>, end: Option<int>): (o: ConfirmOutcome)
    ensures o.Forward? <==> Recent(now, start) && Recent(now, end)
    ensures o.Forward? ==> o.start == start && o.end == end
  {
    var todayMillis := now - DayMillis;
    if start.Some? && start.value < todayMillis then KeepOpen
    else if end.Some? && end.value < todayMillis then KeepOpen
    else Forward(start, end)
  }

  /** A millisecond value the dialog accepts at `now`: absent, or not older than a day. */
  predicate Recent(now: int, t: Option<int>) {
    t.None? || t.value >= now - DayMillis
  }

  /**
   * OK goes through exactly when both ends are recent, and then hands on the
   * picker's pair unchanged, absent ends included.
   */
  lemma ConfirmAcceptsRecent(now: int, start: Option<int>, end: Option<int>)
    ensures DecideConfirm(now, start, end).Forward? <==> Recent(now, start) && Recent(now, end)
    ensures DecideConfirm(now, start, end).Forward? ==>
      DecideConfirm(now, start, end) == Forward(start, end)
  {
  }

  /** A range that is too old stays too old as the clock moves on. */
  lemma ConfirmRejectionPersists(now: int, later: int, start: Option<int>, end: Option<int>)
    requires now <= later
    requires DecideConfirm(now, start, end) == KeepOpen
    ensures DecideConfirm(later, start, end) == KeepOpen
  {
  }

  /**
   * The range-selected handler: both dates are replaced only when both ends
   * are present; the dialog is closed in every case.
   */
  function SelectRange(f: Form, start: Option<int>, end: Option<int>, toLocalDate: int -> Date): (g: Form)
    ensures !g.showDateRangePicker && g.name == f.name
    ensures start.Some? && end.Some? ==>
      g.arrivalDate == Some(toLocalDate(start.value)) && g.departureDate == Some(toLocalDate(end.value))
    ensures start.None? || end.None? ==>
      g.arrivalDate == f.arrivalDate && g.departureDate == f.departureDate
  {
    if start.Some? && end.Some? then
      f.(arrivalDate := Some(toLocalDate(start.value)),
         departureDate := Some(toLocalDate(end.value)),
         showDateRangePicker := false)
    else
      f.(showDateRangePicker := false)
  }

  /** The OK click as a whole: the guard, then the handler, then dismissal. */
  function ConfirmStep(f: Form, now: int, start: Option<int>, end: Option<int>, toLocalDate: int -> Date): (g: Form)
    ensures g.name == f.name
    ensures g == f || !g.showDateRangePicker
    ensures DatesPaired(f) ==> DatesPaired(g)
  {
    match DecideConfirm(now, start, end)
    case KeepOpen => f
    case Forward(s, e) => SelectRange(f, s, e, toLocalDate).(showDateRangePicker := false)
  }

  /** Arrival and departure are set together or not at all. */
  predicate DatesPaired(f: Form) {
    f.arrivalDate.Some? == f.departureDate.Some?
  }

  /**
   * Every handler keeps the two dates paired, so on a reachable screen a
   * missing date means no range was chosen.
   */
  lemma HandlersKeepDatesPaired(f: Form, entries: seq<BookingEntry>, name: string, open: bool,
                                now: int, start: Option<int>, end: Option<int>, toLocalDate: int -> Date)
    requires DatesPaired(f)
    ensures DatesPaired(InitialForm)
    ensures DatesPaired(f.(name := name))
    ensures DatesPaired(f.(showDateRangePicker := open))
    ensures DatesPaired(SaveStep(f, entries).0)
    ensures DatesPaired(ConfirmStep(f, now, start, end, toLocalDate))
  {
  }

  /**
   * A full pick: an accepted range with both ends sets the dates to the
   * converted ends, closes the dialog and keeps the name; a rejected one
   * changes nothing; one with a missing end only closes the dialog.
   */
  lemma ConfirmStepEffect(f: Form, now: int, start: Option<int>, end: Option<int>, toLocalDate: int -> Date)
    ensures var g := ConfirmStep(f, now, start, end, toLocalDate);
      && g.name == f.name
      && (!(Recent(now, start) && Recent(now, end)) ==> g == f)
      && (Recent(now, start) && Recent(now, end) ==> !g.showDateRangePicker)
      && (Recent(now, start) && Recent(now, end) && start.Some? && end.Some? ==>
            g.arrivalDate == Some(toLocalDate(start.value)) &&
            g.departureDate == Some(toLocalDate(end.value)))
      && (Recent(now, start) && Recent(now, end) && (start.None? || end.None?) ==>
            g == f.(showDateRangePicker := false))
  {
    ConfirmAcceptsRecent(now, start, end);
  }

  /**
   * Picking a recent range and then saving with a non-blank name stores
   * exactly one entry, with the converted dates and that name, and clears
   * the form.
   */
  lemma PickThenSave(f: Form, entries: seq<BookingEntry>, now: int, start: int, end: int,
                     toLocalDate: int -> Date)
    requires !IsBlank(f.name)
    requires Recent(now, Some(start)) && Recent(now, Some(end))
    ensures var (g, stored) := SaveStep(ConfirmStep(f, now, Some(start), Some(end), toLocalDate), entries);
      && stored == entries + [BookingEntry(toLocalDate(start), toLocalDate(end), f.name)]
      && g.name == "" && g.arrivalDate.None? && g.departureDate.None?
  {
    ConfirmStepEffect(f, now, Some(start), Some(end), toLocalDate);
  }

  /** The screen: the remembered state variables and the store it adds to. */
  class AddScreen {
    var name: string
    var arrivalDate: Option<Date>
    var departureDate: Option<Date>
    var showDateRangePicker: bool
    const sharedViewModel: SharedViewModel

    function State(): Form
      reads this
    {
      Form(name, arrivalDate, departureDate, showDateRangePicker)
    }

    constructor (vm: SharedViewModel)
      ensures State() == InitialForm && sharedViewModel == vm
    {
      name := "";
      arrivalDate := None;
      departureDate := None;
      showDateRangePicker := false;
      sharedViewModel := vm;
    }

    /** Typing in the name field. */
    method OnNameChange(it: string)
      modifies this
      ensures State() == old(State()).(name := it)
    {
      name := it;
    }

    /** A click on the date field opens the dialog. */
    method OnDateFieldClick()
      modifies this
      ensures State() == old(State()).(showDateRangePicker := true)
    {
      showDateRangePicker := true;
    }

    /** Dismissing the dialog (Cancel, or a tap outside it) closes it. */
    method OnDismiss()
      modifies this
      ensures State() == old(State()).(showDateRangePicker := false)
    {
      showDateRangePicker := false;
    }

    /** The Save button; returns the message it shows, if any. */
    method OnSaveClick() returns (toast: Option<string>)
      modifies this, sharedViewModel
      ensures (State(), sharedViewModel.bookingsEntries) ==
        SaveStep(old(State()), old(sharedViewModel.bookingsEntries))
      ensures toast == ToastMessage(DecideSave(old(State())))
    {
      if IsBlank(name) && (arrivalDate == None || departureDate == None) {
        toast := Some("Please fill all the fields");
      } else if arrivalDate == None || departureDate == None {
        toast := Some("Please select a date range");
      } else if IsBlank(name) {
        toast := Some("Name cant be empty");
      } else {
        sharedViewModel.AddBookingEntry(arrivalDate.value, departureDate.value, name);
        name := "";
        arrivalDate := None;
        departureDate := None;
        toast := None;
      }
    }

    /** The range-selected callback the dialog invokes. */
    method OnDateRangeSelected(start: Option<int>, end: Option<int>, toLocalDate: int -> Date)
      modifies this
      ensures State() == SelectRange(old(State()), start, end, toLocalDate)
    {
      if start.Some? {
        if end.Some? {
          arrivalDate := Some(toLocalDate(start.value));
          departureDate := Some(toLocalDate(end.value));
        }
      }
      showDateRangePicker := false;
    }

    /**
     * The dialog's OK button, with the clock reading `now` and the picker's
     * selected start and end in epoch milliseconds.
     */
    method OnConfirmClick(now: int, start: Option<int>, end: Option<int>, toLocalDate: int -> Date)
      modifies this
      ensures State() == ConfirmStep(old(State()), now, start, end, toLocalDate)
    {
      var todayMillis := now - DayMillis;
      if start.Some? && start.value < todayMillis {
        return;
      }
      if end.Some? && end.value < todayMillis {
        return;
      }
      OnDateRangeSelected(start, end, toLocalDate);
      OnDismiss();
    }
  }
}
