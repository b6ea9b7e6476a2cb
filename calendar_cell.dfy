/** One day cell of the calendar: clicking opens a dialog paging through
    the day's events with next and previous buttons. */
module CalendarCell {
  import opened Wrappers
  import UserStore

  /** `Math.min(i + 1, n - 1)`. */
  function NextIndex(i: int, n: int): (r: int)
    ensures r <= i + 1 && r <= n - 1 && (r == i + 1 || r == n - 1)
    ensures i == n - 1 ==> r == i
  {
    if i + 1 < n - 1 then i + 1 else n - 1
  }

  /** `Math.max(i - 1, 0)`. */
  function PrevIndex(i: int): (r: int)
    ensures r >= i - 1 && r >= 0 && (r == i - 1 || r == 0)
    ensures i == 0 ==> r == 0
  {
    if i - 1 > 0 then i - 1 else 0
  }

  /** The dialog's paging buttons. */
  datatype Nav = Next | Prev

  /** The index after pressing the buttons `cmds` in order, with `n` events. */
  function Run(cmds: seq<Nav>, i: int, n: int): int
    decreases |cmds|
  {
    if cmds == [] then i
    else
      var j := match cmds[0] case Next => NextIndex(i, n) case Prev => PrevIndex(i);
      Run(cmds[1..], j, n)
  }

  /** From an index in range, no sequence of next and previous leaves the range. */
  lemma {:induction false} RunStaysInRange(cmds: seq<Nav>, i: int, n: int)
    requires 0 <= i < n
    ensures 0 <= Run(cmds, i, n) < n
    decreases |cmds|
  {
    if cmds != [] {
      var j := match cmds[0] case Next => NextIndex(i, n) case Prev => PrevIndex(i);
      RunStaysInRange(cmds[1..], j, n);
    }
  }

  /** The event the dialog shows: the one at index `i`, or the empty record when `i` is out of range. */
  function Shown(events: seq<UserStore.Article>, i: int): (r: Option<UserStore.Article>)
    ensures r.Some? <==> 0 <= i < |events|
    ensures r.Some? ==> r.value == events[i]
  {
    if 0 <= i < |events| then Some(events[i]) else None
  }

  /** Today's date as `getDate`, `getMonth` and `getFullYear` give it. */
  datatype Today = Today(day: int, month: int, year: int)

  const TodayColor := "#318CE7"
  const OtherColor := "transparent"

  /** The cell's background colour. */
  function Background(day: int, month: int, year: int, today: Today): (c: string)
    ensures c == TodayColor <==> day == today.day && month == today.month && year == today.year
    ensures c == TodayColor || c == OtherColor
  {
    if day == today.day && month == today.month && year == today.year then TodayColor else OtherColor
  }

  class Cell {
    const day: int
    const events: seq<UserStore.Article>
    var open: bool
    var currentEventIndex: int
    /** The parent's selected day, set through `setSelected`. */
    var selected: Option<int>

    /** The index stays within the events; with none it can only reach `-1`. */
    ghost predicate Valid()
      reads this
    {
      if |events| == 0 then -1 <= currentEventIndex <= 0 else 0 <= currentEventIndex < |events|
    }

    constructor (day: int, events: seq<UserStore.Article>)
      ensures this.day == day && this.events == events
      ensures !open && currentEventIndex == 0 && selected == None
      ensures Valid()
    {
      this.day, this.events := day, events;
      open, currentEventIndex, selected := false, 0, None;
    }

    /** `handleCellClick`: records the day, and opens the dialog when there are events. */
    method Click()
      modifies this`open, this`selected
      ensures selected == Some(day)
      ensures open == (|events| > 0 || old(open))
    {
      selected := Some(day);
      if |events| == 0 {
        return;
      }
      open := true;
    }

    /** `handleClose`. */
    method Close()
      modifies this`open, this`currentEventIndex
      ensures !open && currentEventIndex == 0
      ensures Valid()
    {
      open := false;
      currentEventIndex := 0;
    }

    /** `handleNextEvent`. */
    method Next()
      modifies this`currentEventIndex
      ensures currentEventIndex == NextIndex(old(currentEventIndex), |events|)
      ensures old(Valid()) ==> Valid()
    {
      currentEventIndex := NextIndex(currentEventIndex, |events|);
    }

    /** `handlePrevEvent`. */
    method Prev()
      modifies this`currentEventIndex
      ensures currentEventIndex == PrevIndex(old(currentEventIndex))
      ensures old(Valid()) ==> Valid()
    {
      currentEventIndex := PrevIndex(currentEventIndex);
    }

    /** The event the dialog shows. */
    function Article(): (r: Option<UserStore.Article>)
      reads this
      ensures Valid() && |events| > 0 ==> r == Some(events[currentEventIndex])
    {
      Shown(events, currentEventIndex)
    }
  }

  /** With no events, pressing next moves the index to `-1`, where nothing is shown. */
  lemma NextWithNoEvents()
    ensures NextIndex(0, 0) == -1 && Shown([], -1) == None
  {
  }
}
