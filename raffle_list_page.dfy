/**
 * The raffle list: cards filtered by category, year and month, the open raffles first and
 * each group latest first.
 */
module RaffleListPage {
  import opened Wrappers
  import opened Types
  import opened Seqs

  /** `CATEGORIES`: the filter pills. "Outro" is not among them. */
  const Categories: seq<string> := ["Todos", "Caboclo", "Preto Velho", "Exú", "Crianças", "Mata", "Praia"]

  /** The selected category, the year of `currentDate`, and the selected month (`None` for 'all', else 0-11). */
  datatype ListFilter = ListFilter(category: string, year: int, month: Option<int>)

  /** 'Todos', `new Date(2025, 10)` and month 10 (November). */
  const InitialFilter := ListFilter("Todos", 2025, Some(10))

  /** The `filter` callback: category, year and month all match. */
  predicate Shown(f: ListFilter, r: Raffle) {
    && (f.category == "Todos" || r.category == f.category)
    && r.date.year == f.year
    && (f.month.None? || r.date.month - 1 == f.month.value)
  }

  /**
   * The comparator as written: when `a.isFinalized !== b.isFinalized` the one whose flag is
   * falsy goes first, otherwise the later day goes first.
   */
  predicate FinalizedLastAsWritten(a: Raffle, b: Raffle) {
    if a.isFinalized != b.isFinalized then !Flag(a.isFinalized) else LaterDate(a, b)
  }

  /** The same order on the flags' truth values. */
  predicate FinalizedLast(a: Raffle, b: Raffle) {
    if Flag(a.isFinalized) != Flag(b.isFinalized) then !Flag(a.isFinalized) else LaterDate(a, b)
  }

  /** `sortedAndFilteredRaffles`. */
  function Listed(raffles: seq<Raffle>, f: ListFilter): seq<Raffle> {
    Sort(Filter(raffles, (r: Raffle) => Shown(f, r)), FinalizedLastAsWritten)
  }

  /** A raffle as the list receives it: `GET /api/raffles` sets `isFinalized: !!raffle.isFinalized`. */
  predicate Loaded(r: Raffle) {
    r.isFinalized.Some?
  }

  lemma FinalizedLastIsStrictWeakOrder()
    ensures StrictWeakOrder(FinalizedLast)
  {
    EarlierIsStrictTotalOrder();
    forall a: Raffle, b: Raffle | FinalizedLast(a, b) ensures !FinalizedLast(b, a) {
      if Flag(a.isFinalized) == Flag(b.isFinalized) {
        assert Earlier(b.date, a.date);
        assert !Earlier(a.date, a.date);
      }
    }
    forall a: Raffle, b: Raffle, c: Raffle | !FinalizedLast(a, b) && !FinalizedLast(b, c)
      ensures !FinalizedLast(a, c)
    {
      if Flag(a.isFinalized) == Flag(b.isFinalized) == Flag(c.isFinalized) {
        if a.date != b.date && b.date != c.date {
          assert Earlier(a.date, b.date) && Earlier(b.date, c.date);
        }
      }
    }
  }

  /** On loaded raffles the comparator as written is the order on the flags' truth values. */
  lemma AsWrittenOnLoaded(a: Raffle, b: Raffle)
    requires Loaded(a) && Loaded(b)
    ensures FinalizedLastAsWritten(a, b) == FinalizedLast(a, b)
  {
    assert Flag(a.isFinalized) == a.isFinalized.value && Flag(b.isFinalized) == b.isFinalized.value;
  }

  /**
   * With an absent flag beside a `false` one the comparator as written says each goes
   * before the other, so it is not a strict weak order on raffles in general.
   */
  lemma AsWrittenNeedsLoadedFlags(a: Raffle)
    ensures FinalizedLastAsWritten(a.(isFinalized := None), a.(isFinalized := Some(false)))
    ensures FinalizedLastAsWritten(a.(isFinalized := Some(false)), a.(isFinalized := None))
    ensures !StrictWeakOrder(FinalizedLastAsWritten)
  {
    var x, y := a.(isFinalized := None), a.(isFinalized := Some(false));
    assert FinalizedLastAsWritten(x, y) && FinalizedLastAsWritten(y, x);
  }

  /**
   * On loaded raffles the list holds exactly the raffles the filter keeps, each as often as
   * in the input, with every open raffle before every finalised one and, among raffles of
   * the same status, no earlier day before a later one.
   */
  lemma ListedIsOrderedSelection(raffles: seq<Raffle>, f: ListFilter)
    requires forall r :: r in raffles ==> Loaded(r)
    ensures forall r :: r in Listed(raffles, f) <==> r in raffles && Shown(f, r)
    ensures forall r :: multiset(Listed(raffles, f))[r] == if Shown(f, r) then multiset(raffles)[r] else 0
    ensures Sorted(Listed(raffles, f), FinalizedLast)
    ensures forall i, j :: 0 <= i < j < |Listed(raffles, f)| && Flag(Listed(raffles, f)[i].isFinalized) ==>
      Flag(Listed(raffles, f)[j].isFinalized)
    ensures forall i, j ::
      (0 <= i < j < |Listed(raffles, f)| &&
       Flag(Listed(raffles, f)[i].isFinalized) == Flag(Listed(raffles, f)[j].isFinalized)) ==>
      !Earlier(Listed(raffles, f)[i].date, Listed(raffles, f)[j].date)
  {
    var p := (r: Raffle) => Shown(f, r);
    var shown := Filter(raffles, p);
    forall a, b | a in shown && b in shown ensures FinalizedLastAsWritten(a, b) == FinalizedLast(a, b) {
      AsWrittenOnLoaded(a, b);
    }
    SortAgree(shown, FinalizedLastAsWritten, FinalizedLast);
    FinalizedLastIsStrictWeakOrder();
    SortedSelection(raffles, p, FinalizedLast);
  }

  /** "Outro" is not a pill, so a raffle of that category only shows under "Todos". */
  lemma OtherOnlyUnderAll(f: ListFilter, r: Raffle)
    requires f.category in Categories && r.category == "Outro" && Shown(f, r)
    ensures f.category == "Todos"
  {
  }

  /** The filter state of the page and whether the month picker is open. */
  class Page {
    var filter: ListFilter
    var isDatePickerOpen: bool

    constructor ()
      ensures filter == InitialFilter && !isDatePickerOpen
    {
      filter := InitialFilter;
      isDatePickerOpen := false;
    }

    /** A category pill: `setSelectedCategory`. */
    method SelectCategory(c: string)
      requires c in Categories
      modifies this
      ensures filter == old(filter).(category := c)
      ensures isDatePickerOpen == old(isDatePickerOpen)
    {
      filter := filter.(category := c);
    }

    /** The filter button: `setIsDatePickerOpen(!isDatePickerOpen)`. */
    method TogglePicker()
      modifies this
      ensures isDatePickerOpen == !old(isDatePickerOpen)
      ensures filter == old(filter)
    {
      isDatePickerOpen := !isDatePickerOpen;
    }

    /** `handleMonthSelect`: selects a month or the whole year and closes the picker. */
    method SelectMonth(month: Option<int>)
      requires month.Some? ==> 0 <= month.value < 12
      modifies this
      ensures filter == old(filter).(month := month)
      ensures !isDatePickerOpen
    {
      filter := filter.(month := month);
      isDatePickerOpen := false;
    }

    /** `changeYear`: `setFullYear(getFullYear() + amount)` moves only the year. */
    method ChangeYear(amount: int)
      modifies this
      ensures filter == old(filter).(year := old(filter).year + amount)
      ensures isDatePickerOpen == old(isDatePickerOpen)
    {
      filter := filter.(year := filter.year + amount);
    }
  }
}
