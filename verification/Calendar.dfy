/** The visit calendar: overlap and travel alerts for a user's active visits, and events grouped by day. */
module Calendar {
  import opened Common
  import Reservations

  /** An event as the sweep sees it; travel minutes between two events are a parameter. */
  datatype Event = Event(id: string, window: Window, date: string)

  datatype Alert =
    | ScheduleOverlap(related: string)
    | TravelTimeInsufficient(related: string, required: int, available: int)

  type Travel = (Event, Event) -> Option<int>

  ghost predicate Sorted(s: seq<Event>) {
    forall i, j :: 0 <= i < j < |s| ==> s[i].window.start <= s[j].window.start
  }

  ghost predicate Proper(s: seq<Event>) {
    forall i :: 0 <= i < |s| ==> s[i].window.start < s[i].window.end
  }

  // ---------- the sweep, against the all-pairs definition ----------

  /** alerts, and after them the alert about event i on event k if they are different and overlap. */
  function Noted(alerts: seq<Alert>, s: seq<Event>, k: nat, i: nat): seq<Alert>
    requires k < |s| && i < |s|
  {
    if i != k && Overlaps(s[k].window, s[i].window) then alerts + [ScheduleOverlap(s[i].id)] else alerts
  }

  /** alerts, and after them the overlap alerts event k owes to the events lo..hi, in order. */
  function NotedAll(alerts: seq<Alert>, s: seq<Event>, k: nat, lo: nat, hi: nat): seq<Alert>
    requires k < |s| && lo <= hi <= |s|
    decreases hi
  {
    if lo == hi then alerts else Noted(NotedAll(alerts, s, k, lo, hi - 1), s, k, hi - 1)
  }

  /** alerts, and after them the warning event k gets when the visit just before it ends too late to travel. */
  function Warned(alerts: seq<Alert>, s: seq<Event>, k: nat, travel: Travel): seq<Alert>
    requires k < |s|
  {
    if k == 0 || s[k - 1].window.end > s[k].window.start then alerts
    else
      var required := travel(s[k - 1], s[k]);
      var available := (s[k].window.start - s[k - 1].window.end) / MINUTE;
      if required.Some? && available < required.value
      then alerts + [TravelTimeInsufficient(s[k - 1].id, required.value, available)]
      else alerts
  }

  /** Everything event k is told: clashes with earlier events, the travel warning, clashes with later events. */
  function ExpectedAlerts(s: seq<Event>, k: nat, travel: Travel): seq<Alert>
    requires k < |s|
  {
    NotedAll(Warned(NotedAll([], s, k, 0, k), s, k, travel), s, k, k, |s|)
  }

  lemma {:induction false} NothingToNote(alerts: seq<Alert>, s: seq<Event>, k: nat, lo: nat, mid: nat, hi: nat)
    requires k < |s| && lo <= mid <= hi <= |s|
    requires forall j :: mid <= j < hi ==> !Overlaps(s[k].window, s[j].window)
    ensures NotedAll(alerts, s, k, lo, mid) == NotedAll(alerts, s, k, lo, hi)
    decreases hi
  {
    if mid < hi {
      NothingToNote(alerts, s, k, lo, mid, hi - 1);
    }
  }

  /** Once the list is sorted, the first event that starts too late ends the search for overlaps. */
  lemma BreakIsExact(alerts: seq<Alert>, s: seq<Event>, index: nat, next: nat)
    requires Sorted(s) && Proper(s) && index < next <= |s|
    requires next < |s| ==> s[next].window.start >= s[index].window.end
    ensures NotedAll(alerts, s, index, index, next) == NotedAll(alerts, s, index, index, |s|)
    ensures forall k :: next <= k < |s| ==> !Overlaps(s[k].window, s[index].window)
  {
    forall k | next <= k < |s|
      ensures !Overlaps(s[index].window, s[k].window)
    {
      assert s[next].window.start <= s[k].window.start;
    }
    NothingToNote(alerts, s, index, index, next, |s|);
  }

  /** Each of the two clashing events is told of the other. */
  method Tell(s: seq<Event>, index: nat, next: nat, alerts: array<seq<Alert>>)
    requires index < next < |s| == alerts.Length && Overlaps(s[index].window, s[next].window)
    modifies alerts
    ensures alerts[index] == Noted(old(alerts[index]), s, index, next)
    ensures alerts[next] == Noted(old(alerts[next]), s, next, index)
    ensures forall k :: 0 <= k < |s| && k != index && k != next ==> alerts[k] == old(alerts[k])
  {
    alerts[index] := alerts[index] + [ScheduleOverlap(s[next].id)];
    alerts[next] := alerts[next] + [ScheduleOverlap(s[index].id)];
  }

  /** The inner loop: compare one event with the ones after it until one starts too late. */
  method ScanForward(s: seq<Event>, index: nat, alerts: array<seq<Alert>>)
    requires Sorted(s) && Proper(s) && index < |s| == alerts.Length
    modifies alerts
    ensures forall k :: 0 <= k < index ==> alerts[k] == old(alerts[k])
    ensures alerts[index] == NotedAll(old(alerts[index]), s, index, index, |s|)
    ensures forall k :: index < k < |s| ==> alerts[k] == Noted(old(alerts[k]), s, k, index)
  {
    var next := index + 1;
    while next < |s| && s[next].window.start < s[index].window.end
      invariant index < next <= |s|
      invariant forall k :: 0 <= k < index ==> alerts[k] == old(alerts[k])
      invariant alerts[index] == NotedAll(old(alerts[index]), s, index, index, next)
      invariant forall k :: index < k < next ==> alerts[k] == Noted(old(alerts[k]), s, k, index)
      invariant forall k :: next <= k < |s| ==> alerts[k] == old(alerts[k])
    {
      assert s[index].window.start <= s[next].window.start;
      Tell(s, index, next, alerts);
      next := next + 1;
    }
    BreakIsExact(old(alerts[index]), s, index, next);
  }

  /** The neighbour that follows an event is checked for travel time. */
  method WarnNext(s: seq<Event>, index: nat, travel: Travel, alerts: array<seq<Alert>>)
    requires index + 1 < |s| == alerts.Length
    modifies alerts
    ensures alerts[index + 1] == Warned(old(alerts[index + 1]), s, index + 1, travel)
    ensures forall k :: 0 <= k < |s| && k != index + 1 ==> alerts[k] == old(alerts[k])
  {
    if s[index].window.end <= s[index + 1].window.start {
      var required := travel(s[index], s[index + 1]);
      var available := (s[index + 1].window.start - s[index].window.end) / MINUTE;
      if required.Some? && available < required.value {
        alerts[index + 1] := alerts[index + 1] + [TravelTimeInsufficient(s[index].id, required.value, available)];
      }
    }
  }

  /** The sweep: each event scans forward, then the neighbour that follows it is checked for travel time. */
  method Sweep(s: seq<Event>, travel: Travel) returns (alerts: array<seq<Alert>>)
    requires Sorted(s) && Proper(s)
    ensures fresh(alerts) && alerts.Length == |s|
    ensures forall k :: 0 <= k < |s| ==> alerts[k] == ExpectedAlerts(s, k, travel)
  {
    alerts := new seq<Alert>[|s|](_ => []);
    for index := 0 to |s|
      invariant forall k :: 0 <= k < index ==> alerts[k] == ExpectedAlerts(s, k, travel)
      invariant index < |s| ==> alerts[index] == Warned(NotedAll([], s, index, 0, index), s, index, travel)
      invariant forall k :: index < k < |s| ==> alerts[k] == NotedAll([], s, k, 0, index)
    {
      ScanForward(s, index, alerts);
      if index + 1 < |s| {
        WarnNext(s, index, travel, alerts);
      }
    }
  }

  /** How often k is told that it overlaps the event with this id. */
  function TimesTold(alerts: seq<Alert>, id: string): nat {
    |Tellings(alerts, id)|
  }

  function Tellings(alerts: seq<Alert>, id: string): set<nat> {
    set i: nat | i < |alerts| && alerts[i] == ScheduleOverlap(id)
  }

  ghost predicate DistinctIds(s: seq<Event>) {
    forall i, j :: 0 <= i < j < |s| ==> s[i].id != s[j].id
  }

  lemma NotedOnce(alerts: seq<Alert>, s: seq<Event>, k: nat, i: nat, j: nat)
    requires DistinctIds(s) && k < |s| && i < |s| && j < |s|
    ensures TimesTold(Noted(alerts, s, k, i), s[j].id)
            == TimesTold(alerts, s[j].id) + if i == j && j != k && Overlaps(s[k].window, s[j].window) then 1 else 0
  {
    var told, after := Tellings(alerts, s[j].id), Tellings(Noted(alerts, s, k, i), s[j].id);
    assert i != j ==> s[i].id != s[j].id;
    assert after == told || after == told + {|alerts|};
    assert |alerts| !in told;
  }

  lemma {:induction false} TimesNoted(alerts: seq<Alert>, s: seq<Event>, k: nat, lo: nat, hi: nat, j: nat)
    requires DistinctIds(s) && k < |s| && j < |s| && lo <= hi <= |s|
    ensures TimesTold(NotedAll(alerts, s, k, lo, hi), s[j].id)
            == TimesTold(alerts, s[j].id) + if lo <= j < hi && j != k && Overlaps(s[k].window, s[j].window) then 1 else 0
    decreases hi
  {
    if lo < hi {
      TimesNoted(alerts, s, k, lo, hi - 1, j);
      var before := NotedAll(alerts, s, k, lo, hi - 1);
      NotedOnce(before, s, k, hi - 1, j);
      assert NotedAll(alerts, s, k, lo, hi) == Noted(before, s, k, hi - 1);
    }
  }

  /** The early break loses nothing: each event is told of each other event once if the two overlap and never otherwise,
      so the alert on one side always has its twin on the other. */
  lemma SweepIsAllPairs(s: seq<Event>, travel: Travel, k: nat, j: nat)
    requires DistinctIds(s) && k < |s| && j < |s|
    ensures TimesTold(ExpectedAlerts(s, k, travel), s[j].id)
            == if j != k && Overlaps(s[k].window, s[j].window) then 1 else 0
    ensures TimesTold(ExpectedAlerts(s, k, travel), s[j].id) == TimesTold(ExpectedAlerts(s, j, travel), s[k].id)
  {
    SweepAt(s, travel, k, j);
    SweepAt(s, travel, j, k);
  }

  lemma SweepAt(s: seq<Event>, travel: Travel, k: nat, j: nat)
    requires DistinctIds(s) && k < |s| && j < |s|
    ensures TimesTold(ExpectedAlerts(s, k, travel), s[j].id)
            == if j != k && Overlaps(s[k].window, s[j].window) then 1 else 0
  {
    var earlier := NotedAll([], s, k, 0, k);
    var warned := Warned(earlier, s, k, travel);
    TimesNoted([], s, k, 0, k, j);
    assert Tellings(warned, s[j].id) == Tellings(earlier, s[j].id);
    TimesNoted(warned, s, k, k, |s|, j);
  }

  lemma {:induction false} NotedAllAdds(alerts: seq<Alert>, s: seq<Event>, k: nat, lo: nat, hi: nat)
    requires k < |s| && lo <= hi <= |s|
    ensures alerts <= NotedAll(alerts, s, k, lo, hi)
    ensures forall a :: |alerts| <= a < |NotedAll(alerts, s, k, lo, hi)| ==> NotedAll(alerts, s, k, lo, hi)[a].ScheduleOverlap?
    decreases hi
  {
    if lo < hi {
      NotedAllAdds(alerts, s, k, lo, hi - 1);
    }
  }

  /** An event is warned exactly of the visit just before it, when that has ended by then and the whole minutes in between
      are fewer than the way is known to take. */
  lemma TravelWarningIff(s: seq<Event>, travel: Travel, k: nat, id: string, required: int, available: int)
    requires k < |s|
    ensures TravelTimeInsufficient(id, required, available) in ExpectedAlerts(s, k, travel) <==>
            && k > 0 && id == s[k - 1].id && s[k - 1].window.end <= s[k].window.start
            && travel(s[k - 1], s[k]) == Some(required) && available < required
            && available * 60_000 <= s[k].window.start - s[k - 1].window.end < (available + 1) * 60_000
  {
    var earlier := NotedAll([], s, k, 0, k);
    var warned := Warned(earlier, s, k, travel);
    var all := ExpectedAlerts(s, k, travel);
    NotedAllAdds([], s, k, 0, k);
    NotedAllAdds(warned, s, k, k, |s|);
    var w := TravelTimeInsufficient(id, required, available);
    assert w in all <==> w in warned by {
      if w in warned {
        var a :| 0 <= a < |warned| && warned[a] == w;
        assert all[a] == w;
      }
    }
    if warned != earlier {
      assert warned[|earlier|] in warned;
    }
  }

  /** Where an overlap alert comes from. */
  lemma {:induction false} NotedSource(alerts: seq<Alert>, s: seq<Event>, k: nat, lo: nat, hi: nat, a: nat) returns (i: nat)
    requires k < |s| && lo <= hi <= |s| && |alerts| <= a < |NotedAll(alerts, s, k, lo, hi)|
    ensures lo <= i < hi && NotedAll(alerts, s, k, lo, hi)[a] == ScheduleOverlap(s[i].id)
    decreases hi
  {
    if lo == hi {
      assert false;
      i := lo;
    } else {
      var before := NotedAll(alerts, s, k, lo, hi - 1);
      if a < |before| {
        i := NotedSource(alerts, s, k, lo, hi - 1, a);
      } else {
        i := hi - 1;
      }
    }
  }

  lemma SameId(s: seq<Event>, a: nat, b: nat)
    requires DistinctIds(s) && a < |s| && b < |s| && s[a].id == s[b].id
    ensures a == b
  {
  }

  lemma {:induction false} NotedInOrder(alerts: seq<Alert>, s: seq<Event>, k: nat, lo: nat, hi: nat, i: nat, j: nat, a: nat, b: nat)
    requires DistinctIds(s) && k < |s| && lo <= hi <= |s| && i < j < |s|
    requires |alerts| <= a < |NotedAll(alerts, s, k, lo, hi)| && NotedAll(alerts, s, k, lo, hi)[a] == ScheduleOverlap(s[i].id)
    requires |alerts| <= b < |NotedAll(alerts, s, k, lo, hi)| && NotedAll(alerts, s, k, lo, hi)[b] == ScheduleOverlap(s[j].id)
    ensures a < b
    decreases hi
  {
    var before := NotedAll(alerts, s, k, lo, hi - 1);
    if a < |before| && b < |before| {
      NotedInOrder(alerts, s, k, lo, hi - 1, i, j, a, b);
    } else if b < |before| {
      var m := NotedSource(alerts, s, k, lo, hi - 1, b);
      SameId(s, m, j);
    }
  }

  /** An event's overlap alerts stand in the order of the events they are about, and the travel warning stands between
      those about earlier and those about later events. */
  lemma AlertsInOrder(s: seq<Event>, travel: Travel, k: nat, i: nat, j: nat, a: nat, b: nat)
    requires DistinctIds(s) && k < |s| && i < j < |s|
    requires a < |ExpectedAlerts(s, k, travel)| && ExpectedAlerts(s, k, travel)[a] == ScheduleOverlap(s[i].id)
    requires b < |ExpectedAlerts(s, k, travel)| && ExpectedAlerts(s, k, travel)[b] == ScheduleOverlap(s[j].id)
    ensures a < b
    ensures forall w :: 0 <= w < |ExpectedAlerts(s, k, travel)| && ExpectedAlerts(s, k, travel)[w].TravelTimeInsufficient? ==>
                          (i < k ==> a < w) && (j > k ==> w < b)
  {
    AlertPlace(s, travel, k, i, a);
    AlertPlace(s, travel, k, j, b);
    var earlier := NotedAll([], s, k, 0, k);
    var warned := Warned(earlier, s, k, travel);
    NotedAllAdds([], s, k, 0, k);
    NotedAllAdds(warned, s, k, k, |s|);
    if a < |earlier| && b < |earlier| {
      NotedInOrder([], s, k, 0, k, i, j, a, b);
    } else if a >= |warned| && b >= |warned| {
      NotedInOrder(warned, s, k, k, |s|, i, j, a, b);
    }
  }

  lemma AlertPlace(s: seq<Event>, travel: Travel, k: nat, i: nat, a: nat)
    requires DistinctIds(s) && k < |s| && i < |s|
    requires a < |ExpectedAlerts(s, k, travel)| && ExpectedAlerts(s, k, travel)[a] == ScheduleOverlap(s[i].id)
    ensures var earlier := NotedAll([], s, k, 0, k);
            var warned := Warned(earlier, s, k, travel);
            if i < k then a < |earlier| && earlier[a] == ScheduleOverlap(s[i].id) else a >= |warned|
  {
    var earlier := NotedAll([], s, k, 0, k);
    var warned := Warned(earlier, s, k, travel);
    NotedAllAdds(warned, s, k, k, |s|);
    if a >= |warned| {
      var m := NotedSource(warned, s, k, k, |s|, a);
      SameId(s, m, i);
    } else {
      assert a < |earlier|;
      var m := NotedSource([], s, k, 0, k, a);
      SameId(s, m, i);
    }
  }

  // ---------- grouping by day ----------

  /** An entry of an insertion-ordered map from dates to events. */
  datatype Day = Day(date: string, events: seq<Event>)

  function OnDate(events: seq<Event>, date: string): seq<Event> {
    if events == [] then []
    else OnDate(events[..|events| - 1], date) + if events[|events| - 1].date == date then [events[|events| - 1]] else []
  }

  /** The dates in order of first appearance. */
  function DatesOf(events: seq<Event>): seq<string> {
    if events == [] then []
    else
      var dates := DatesOf(events[..|events| - 1]);
      if events[|events| - 1].date in dates then dates else dates + [events[|events| - 1].date]
  }

  function Members(days: seq<Day>): multiset<Event> {
    if days == [] then multiset{} else Members(days[..|days| - 1]) + multiset(days[|days| - 1].events)
  }

  ghost predicate Grouped(days: seq<Day>, events: seq<Event>) {
    && |days| == |DatesOf(events)|
    && (forall i :: 0 <= i < |days| ==> days[i] == Day(DatesOf(events)[i], OnDate(events, DatesOf(events)[i])))
    && (forall i, j :: 0 <= i < j < |days| ==> days[i].date != days[j].date)
    && Members(days) == multiset(events)
  }

  /** Map.set: an existing key keeps its place, a new one goes last. */
  method Put(days: seq<Day>, event: Event, ghost before: seq<Event>, ghost after: seq<Event>)
      returns (days': seq<Day>)
    requires Grouped(days, before) && after == before + [event]
    ensures Grouped(days', after)
  {
    for i := 0 to |days|
      invariant forall k :: 0 <= k < i ==> days[k].date != event.date
    {
      if days[i].date == event.date {
        days' := days[i := Day(event.date, days[i].events + [event])];
        KnownDate(days, i, before, event);
        return;
      }
    }
    days' := days + [Day(event.date, [event])];
    NewDate(days, before, event);
  }

  lemma OneMoreMember<T>(s: seq<T>, x: T)
    ensures multiset(s + [x]) == multiset(s) + multiset{x}
  {
  }

  lemma {:induction false} MembersUpdated(days: seq<Day>, i: nat, event: Event)
    requires i < |days|
    ensures Members(days[i := Day(event.date, days[i].events + [event])]) == Members(days) + multiset{event}
  {
    var days' := days[i := Day(event.date, days[i].events + [event])];
    var last := |days| - 1;
    if i == last {
      assert days'[..last] == days[..last];
      OneMoreMember(days[i].events, event);
    } else {
      var front := days[..last];
      MembersUpdated(front, i, event);
      assert days'[..last] == front[i := Day(event.date, front[i].events + [event])];
      assert days'[last].events == days[last].events;
    }
  }

  /** Each date appears once, in order of first appearance, with exactly its events in their order; no event is lost. */
  method GroupByDay(events: seq<Event>) returns (days: seq<Day>)
    ensures Grouped(days, events)
  {
    days := [];
    for n := 0 to |events|
      invariant Grouped(days, events[..n])
    {
      days := Put(days, events[n], events[..n], events[..n + 1]);
    }
    assert events[..|events|] == events;
  }

  lemma OneMoreEvent(events: seq<Event>, event: Event)
    ensures DatesOf(events + [event])
            == if event.date in DatesOf(events) then DatesOf(events) else DatesOf(events) + [event.date]
    ensures forall date :: OnDate(events + [event], date)
                           == OnDate(events, date) + if event.date == date then [event] else []
  {
    assert (events + [event])[..|events|] == events;
  }

  lemma KnownDay(days: seq<Day>, i: nat, events: seq<Event>, event: Event, k: nat)
    requires Grouped(days, events) && i < |days| && days[i].date == event.date && k < |days|
    ensures days[i := Day(event.date, days[i].events + [event])][k]
            == Day(days[k].date, OnDate(events + [event], days[k].date))
  {
    OneMoreEvent(events, event);
    assert days[k] == Day(DatesOf(events)[k], OnDate(events, DatesOf(events)[k]));
    if k < i {
      assert days[k].date != days[i].date;
    } else if i < k {
      assert days[i].date != days[k].date;
    }
  }

  lemma KnownDate(days: seq<Day>, i: nat, events: seq<Event>, event: Event)
    requires Grouped(days, events) && i < |days| && days[i].date == event.date
    ensures Grouped(days[i := Day(event.date, days[i].events + [event])], events + [event])
  {
    var days' := days[i := Day(event.date, days[i].events + [event])];
    var all := events + [event];
    var dates := DatesOf(events);
    OneMoreEvent(events, event);
    assert dates[i] == event.date;
    assert DatesOf(all) == dates;
    forall k | 0 <= k < |days'|
      ensures days'[k] == Day(dates[k], OnDate(all, dates[k]))
    {
      KnownDay(days, i, events, event, k);
    }
    forall j, k | 0 <= j < k < |days'|
      ensures days'[j].date != days'[k].date
    {
      assert days[j].date != days[k].date;
    }
    MembersUpdated(days, i, event);
    OneMoreMember(events, event);
  }

  lemma NewDate(days: seq<Day>, events: seq<Event>, event: Event)
    requires Grouped(days, events) && forall i :: 0 <= i < |days| ==> days[i].date != event.date
    ensures Grouped(days + [Day(event.date, [event])], events + [event])
  {
    var days' := days + [Day(event.date, [event])];
    var all := events + [event];
    var dates := DatesOf(events);
    OneMoreEvent(events, event);
    NoneOnDate(events, event.date);
    assert DatesOf(all) == dates + [event.date];
    forall k | 0 <= k < |days'|
      ensures days'[k] == Day(DatesOf(all)[k], OnDate(all, DatesOf(all)[k]))
    {
      if k < |days| {
        assert days[k] == Day(dates[k], OnDate(events, dates[k]));
      }
    }
    assert days'[..|days|] == days;
    OneMoreMember(events, event);
  }

  lemma {:induction false} NoneOnDate(events: seq<Event>, date: string)
    requires date !in DatesOf(events)
    ensures OnDate(events, date) == []
  {
    if events != [] {
      NoneOnDate(events[..|events| - 1], date);
    }
  }

  // ---------- which window a reservation shows ----------

  function ShownWindow(r: Reservations.Reservation): Window {
    if (r.status == Reservations.Confirmed || r.status == Reservations.Completed) && r.confirmed.Some? then r.confirmed.value
    else if r.status == Reservations.AlternativeProposed && r.alternative.Some? then r.alternative.value.window
    else r.requested
  }

  /** In every reachable table the calendar shows an active reservation exactly where the scheduler holds it,
      its window is proper, and a clash between two visits of one requester always involves a pending alternative. */
  lemma ClashesInvolveAlternatives(t: Reservations.Table, i: string, j: string)
    requires Reservations.Safe(t) && i in t && j in t && i != j
    requires Reservations.Active(t[i].status) && Reservations.Active(t[j].status)
    ensures Reservations.Hold(t[i]) == Some(ShownWindow(t[i]))
    ensures ShownWindow(t[i]).start < ShownWindow(t[i]).end
    ensures t[i].requester == t[j].requester && Overlaps(ShownWindow(t[i]), ShownWindow(t[j])) ==>
              t[i].status == Reservations.AlternativeProposed || t[j].status == Reservations.AlternativeProposed
    ensures t[i].broker == t[j].broker && t[i].status == t[j].status == Reservations.Confirmed ==>
              !Overlaps(ShownWindow(t[i]), ShownWindow(t[j]))
  {
    assert Reservations.RowOk(t[i]) && Reservations.RowOk(t[j]);
    assert Reservations.DiaryApart(t[i], t[j]) && Reservations.VisitsApart(t[i], t[j]);
    assert Reservations.FirmHold(t[i]).None? || Reservations.FirmHold(t[i]) == Some(ShownWindow(t[i]));
  }
}
