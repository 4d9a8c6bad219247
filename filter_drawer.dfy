/** src/components/report/FilterDrawer.tsx: the four kinds of report filter,
    and the drawer that edits one. The drawer keeps the active mode, one text
    field per input and which sections are open; submitting builds the filter
    of the active mode from the fields. */
module FilterDrawer {
  import opened Wrappers

  datatype Mode = CustomMode | DailyMode | PendingAllMode | HistoryMode

  /** `DrawerFilters`: each mode with the optional fields it owns. */
  datatype Filters =
    | Custom(from: Option<string>, to: Option<string>)
    | Daily(date: Option<string>)
    | PendingAll
    | History(carName: Option<string>, plate: Option<string>, vin: Option<string>)
  {
    function Mode(): Mode {
      match this
      case Custom(_, _) => CustomMode
      case Daily(_) => DailyMode
      case PendingAll => PendingAllMode
      case History(_, _, _) => HistoryMode
    }
  }

  /** The text of every input of the drawer. */
  datatype Fields = Fields(from: string, to: string, date: string,
                           carName: string, plate: string, vin: string)

  /** The inputs a drawer opened on `initial` starts with: the initial
      filter's value (or "") for the fields its mode owns, "" for the rest. */
  function InitialFields(initial: Filters): (r: Fields)
    ensures r.from == (if initial.Custom? then initial.from.GetOr("") else "")
    ensures r.to == (if initial.Custom? then initial.to.GetOr("") else "")
    ensures r.date == (if initial.Daily? then initial.date.GetOr("") else "")
    ensures r.carName == (if initial.History? then initial.carName.GetOr("") else "")
    ensures r.plate == (if initial.History? then initial.plate.GetOr("") else "")
    ensures r.vin == (if initial.History? then initial.vin.GetOr("") else "")
  {
    match initial
    case Custom(from, to) => Fields(from.GetOr(""), to.GetOr(""), "", "", "", "")
    case Daily(date) => Fields("", "", date.GetOr(""), "", "", "")
    case PendingAll => Fields("", "", "", "", "", "")
    case History(carName, plate, vin) => Fields("", "", "", carName.GetOr(""), plate.GetOr(""), vin.GetOr(""))
  }

  /** `submit()`: the filter of the active mode, carrying exactly that mode's
      fields. */
  function SubmitOf(active: Mode, f: Fields): (r: Filters)
    ensures r.Mode() == active
    ensures active == CustomMode ==> r == Custom(Some(f.from), Some(f.to))
    ensures active == DailyMode ==> r == Daily(Some(f.date))
    ensures active == HistoryMode ==> r == History(Some(f.carName), Some(f.plate), Some(f.vin))
  {
    match active
    case CustomMode => Custom(Some(f.from), Some(f.to))
    case DailyMode => Daily(Some(f.date))
    case PendingAllMode => PendingAll
    case HistoryMode => History(Some(f.carName), Some(f.plate), Some(f.vin))
  }

  /** A filter with each missing field read as "". */
  function Filled(f: Filters): Filters {
    match f
    case Custom(from, to) => Custom(Some(from.GetOr("")), Some(to.GetOr("")))
    case Daily(date) => Daily(Some(date.GetOr("")))
    case PendingAll => PendingAll
    case History(c, p, v) => History(Some(c.GetOr("")), Some(p.GetOr("")), Some(v.GetOr("")))
  }

  /** Submitting a drawer that was opened on f, without editing it, gives f
      back with its missing fields as "". */
  lemma SubmitInitial(f: Filters)
    ensures SubmitOf(f.Mode(), InitialFields(f)) == Filled(f)
    ensures (f.Custom? && f.from.Some? && f.to.Some?) || f.PendingAll? ==> SubmitOf(f.Mode(), InitialFields(f)) == f
  {
  }

  /** Fields a filter does not carry make no difference to it. */
  lemma SubmitIgnoresOtherFields(active: Mode, f: Fields, g: Fields)
    requires active == CustomMode ==> f.from == g.from && f.to == g.to
    requires active == DailyMode ==> f.date == g.date
    requires active == HistoryMode ==> f.carName == g.carName && f.plate == g.plate && f.vin == g.vin
    ensures SubmitOf(active, f) == SubmitOf(active, g)
  {
  }

  /** Which sections of the drawer are open. */
  datatype Sections = Sections(custom: bool, daily: bool, pendingAll: bool, history: bool)
  {
    predicate IsOpen(m: Mode) {
      match m
      case CustomMode => custom
      case DailyMode => daily
      case PendingAllMode => pendingAll
      case HistoryMode => history
    }
  }

  /** The sections the effect on `active` sets: only the active one open. */
  function OnlyOpen(m: Mode): (r: Sections)
    ensures forall k :: r.IsOpen(k) <==> k == m
  {
    Sections(m == CustomMode, m == DailyMode, m == PendingAllMode, m == HistoryMode)
  }

  /** The update of a section's click: its own flag flips. */
  function Toggle(s: Sections, m: Mode): (r: Sections)
    ensures r.IsOpen(m) == !s.IsOpen(m)
    ensures forall k :: k != m ==> r.IsOpen(k) == s.IsOpen(k)
  {
    match m
    case CustomMode => s.(custom := !s.custom)
    case DailyMode => s.(daily := !s.daily)
    case PendingAllMode => s.(pendingAll := !s.pendingAll)
    case HistoryMode => s.(history := !s.history)
  }

  /** The state of the drawer. */
  class Drawer {
    var active: Mode
    var from: string
    var to: string
    var date: string
    var carName: string
    var plate: string
    var vin: string
    var openSection: Sections

    function Inputs(): Fields
      reads this
    {
      Fields(from, to, date, carName, plate, vin)
    }

    /** The drawer as it mounts on `initial`. */
    constructor(initial: Filters)
      ensures active == initial.Mode()
      ensures Inputs() == InitialFields(initial)
      ensures openSection == OnlyOpen(initial.Mode())
    {
      var f := InitialFields(initial);
      active := initial.Mode();
      from, to, date := f.from, f.to, f.date;
      carName, plate, vin := f.carName, f.plate, f.vin;
      openSection := OnlyOpen(initial.Mode());
    }

    /** A click on the header of m's section: m becomes active and its section
      flips; when that changed the active mode, the effect on `active` then
      leaves only m's section open. No input changes. */
    method Click(m: Mode)
      modifies this
      ensures active == m
      ensures old(active) != m ==> openSection == OnlyOpen(m)
      ensures old(active) == m ==> openSection == Toggle(old(openSection), m)
      ensures Inputs() == old(Inputs())
    {
      var changed := active != m;
      active := m;
      openSection := Toggle(openSection, m);
      if changed {
        openSection := OnlyOpen(m);
      }
    }

    /** The `onChange` of each input. */
    method SetFrom(v: string)
      modifies this
      ensures Inputs() == old(Inputs()).(from := v)
      ensures active == old(active) && openSection == old(openSection)
    {
      from := v;
    }

    method SetTo(v: string)
      modifies this
      ensures Inputs() == old(Inputs()).(to := v)
      ensures active == old(active) && openSection == old(openSection)
    {
      to := v;
    }

    method SetDate(v: string)
      modifies this
      ensures Inputs() == old(Inputs()).(date := v)
      ensures active == old(active) && openSection == old(openSection)
    {
      date := v;
    }

    method SetCarName(v: string)
      modifies this
      ensures Inputs() == old(Inputs()).(carName := v)
      ensures active == old(active) && openSection == old(openSection)
    {
      carName := v;
    }

    method SetPlate(v: string)
      modifies this
      ensures Inputs() == old(Inputs()).(plate := v)
      ensures active == old(active) && openSection == old(openSection)
    {
      plate := v;
    }

    method SetVin(v: string)
      modifies this
      ensures Inputs() == old(Inputs()).(vin := v)
      ensures active == old(active) && openSection == old(openSection)
    {
      vin := v;
    }

    /** `submit()`: the filter the drawer hands to the page. */
    function Submit(): (r: Filters)
      reads this
      ensures r.Mode() == active
      ensures active == CustomMode ==> r == Custom(Some(from), Some(to))
      ensures active == DailyMode ==> r == Daily(Some(date))
      ensures active == HistoryMode ==> r == History(Some(carName), Some(plate), Some(vin))
    {
      SubmitOf(active, Inputs())
    }
  }

  /** Opening the drawer on a filter and submitting at once gives the filter
      back (missing fields as ""); clicking another section and back keeps
      what was typed. */
  method OpenAndSubmit(initial: Filters, other: Mode) returns (direct: Filters, after: Filters)
    ensures direct == Filled(initial)
    ensures after == Filled(initial)
  {
    var d := new Drawer(initial);
    direct := d.Submit();
    SubmitInitial(initial);
    d.Click(other);
    d.Click(initial.Mode());
    after := d.Submit();
  }
}
