/** The windows of time that queries are sliced into. */
module TimeWindows {
  import opened Wrappers
  import Clock
  import Filters

  datatype TimeWindow = TimeWindow(start: int, duration: int) {
    function End(): int { start + duration }

    function Advance(): TimeWindow { TimeWindow(start + duration, duration) }
  }

  function NewTimeWindow(start: int, duration: int): Result<TimeWindow> {
    if duration == 0 then Err else Ok(TimeWindow(start, duration))
  }

  const INITIAL_WINDOW_AGE: int := 16 * Clock.MINUTE
  const WINDOW_SIZE: int := 1 * Clock.MINUTE

  /** Window number n of the tiling of time that begins at `start`. */
  function WindowAt(start: int, n: nat): TimeWindow {
    TimeWindow(start + n * WINDOW_SIZE, WINDOW_SIZE)
  }

  /** The query for a window; kinds, tags and authors do not matter for its time bounds. */
  function WindowQuery(w: TimeWindow, kinds: seq<int>, tags: seq<Filters.FilterTag>,
                       authors: seq<string>): Filters.Query {
    Filters.Query([], kinds, tags, authors, Some(w.start), Some(w.End()))
  }

  /** The filter issued for window i asks for events created in second `second`. */
  predicate Covers(start: int, i: nat, second: int) {
    var r := Filters.FilterOf(WindowQuery(WindowAt(start, i), [], [], []));
    r.Ok? && Filters.MatchesTime(r.value, second)
  }

  ghost function CoveringWindows(start: int, n: nat, second: int): set<nat> {
    set i: nat | i < n && Covers(start, i, second)
  }

  /** Truncation shifts all boundaries by the same amount. */
  lemma BoundarySecond(start: int, i: nat)
    ensures Clock.Unix(WindowAt(start, i).start) == Clock.Unix(start) + 60 * i
  {
  }

  lemma CoversMeans(start: int, i: nat, second: int)
    ensures Covers(start, i, second) <==> Clock.Unix(start) + 60 * i <= second <= Clock.Unix(start) + 60 * (i + 1)
  {
    BoundarySecond(start, i);
    BoundarySecond(start, i + 1);
    assert WindowAt(start, i).End() == WindowAt(start, i + 1).start;
  }

  /** Windows q - 1 and q meet in second q * 60; every other second lies in one window. */
  lemma CoveringWindowsAre(start: int, n: nat, second: int)
    ensures var q := (second - Clock.Unix(start)) / 60;
            CoveringWindows(start, n, second) ==
            (if 0 <= q < n then {q} else {}) +
            (if 1 <= q <= n && (second - Clock.Unix(start)) % 60 == 0 then {q - 1} else {})
  {
    forall i: nat
      ensures Covers(start, i, second) <==> 60 * i <= second - Clock.Unix(start) <= 60 * (i + 1)
    {
      CoversMeans(start, i, second);
    }
  }

  /** Although both bounds are cut to seconds and inclusive, no second between the first `since` and
      the last `until` is missed; one is asked for twice exactly when two windows meet in it. */
  lemma SecondsCovered(start: int, n: nat, second: int)
    requires n > 0
    ensures CoveringWindows(start, n, second) != {} <==>
            Clock.Unix(start) <= second <= Clock.Unix(WindowAt(start, n - 1).End())
    ensures |CoveringWindows(start, n, second)| <= 2
    ensures |CoveringWindows(start, n, second)| == 2 <==>
            exists i :: 0 < i < n && second == Clock.Unix(WindowAt(start, i).start)
  {
    CoveringWindowsAre(start, n, second);
    BoundarySecond(start, n);
    assert WindowAt(start, n - 1).End() == WindowAt(start, n).start;
    var q := (second - Clock.Unix(start)) / 60;
    if 0 < q < n {
      BoundarySecond(start, q);
    }
    forall i | 0 < i < n && second == Clock.Unix(WindowAt(start, i).start) ensures i == q {
      BoundarySecond(start, i);
    }
  }
}
