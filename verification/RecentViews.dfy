/** Recently viewed properties and recent searches: bounded tables that stand in for the whole history. */
module RecentViews {
  import opened Common

  type Key = string

  /** When each key was last recorded. */
  type Table = map<Key, int>

  const VIEW_LIMIT: nat := 100
  const SEARCH_LIMIT: nat := 50
  const RETENTION := 90 * DAY

  function Newer(m: Table, t: int): set<Key> {
    set p | p in m && m[p] > t
  }

  /** The rows with fewer than limit newer ones. */
  function Newest(m: Table, limit: nat): Table {
    map p | p in m && |Newer(m, m[p])| < limit :: m[p]
  }

  function Since(m: Table, cutoff: int): Table {
    map p | p in m && m[p] >= cutoff :: m[p]
  }

  datatype Act = Seen(key: Key, at: int) | Purge(now: int) | Clear(key: Key) | ClearAll

  /** The history as it would be without any limit. */
  function Grow(m: Table, a: Act): Table {
    match a
    case Seen(p, at) => m[p := at]
    case Purge(now) => Since(m, now - RETENTION)
    case Clear(p) => m - {p}
    case ClearAll => map[]
  }

  function Full(log: seq<Act>): Table {
    if log == [] then map[] else Grow(Full(log[..|log| - 1]), log[|log| - 1])
  }

  /** What the service does: only recording trims. */
  function Kept(m: Table, a: Act, limit: nat): Table {
    if a.Seen? then Newest(Grow(m, a), limit) else Grow(m, a)
  }

  function Stored(log: seq<Act>, limit: nat): Table {
    if log == [] then map[] else Kept(Stored(log[..|log| - 1], limit), log[|log| - 1], limit)
  }

  /** Each view is recorded strictly later than the views before it. */
  ghost predicate Clocked(log: seq<Act>) {
    forall i, j :: 0 <= i < j < |log| && log[i].Seen? && log[j].Seen? ==> log[i].at < log[j].at
  }

  ghost predicate NoClears(log: seq<Act>) {
    forall i :: 0 <= i < |log| ==> log[i].Seen? || log[i].Purge?
  }

  // ---------- the full history is the last view of each key ----------

  predicate Spares(a: Act, p: Key, t: int) {
    match a
    case Seen(q, _) => q != p
    case Purge(now) => t >= now - RETENTION
    case Clear(q) => q != p
    case ClearAll => false
  }

  ghost predicate Survives(log: seq<Act>, i: nat, p: Key, t: int) {
    i < |log| && log[i] == Seen(p, t) && forall j :: i < j < |log| ==> Spares(log[j], p, t)
  }

  lemma {:induction false} FullIsLastView(log: seq<Act>, p: Key, t: int)
    ensures p in Full(log) && Full(log)[p] == t <==> exists i :: Survives(log, i, p, t)
  {
    if log != [] {
      var n := |log| - 1;
      FullIsLastView(log[..n], p, t);
      if p in Full(log) && Full(log)[p] == t {
        if log[n] == Seen(p, t) {
          assert Survives(log, n, p, t);
        } else {
          var i: nat :| Survives(log[..n], i, p, t);
          assert Survives(log, i, p, t);
        }
      }
      if i: nat :| Survives(log, i, p, t) {
        if i < n {
          assert Survives(log[..n], i, p, t);
          assert Spares(log[n], p, t);
        }
      }
    }
  }

  ghost predicate Distinct(m: Table) {
    forall p, q :: p in m && q in m && p != q ==> m[p] != m[q]
  }

  lemma FullIsDistinct(log: seq<Act>)
    requires Clocked(log)
    ensures Distinct(Full(log))
  {
    forall p, q | p in Full(log) && q in Full(log) && p != q
      ensures Full(log)[p] != Full(log)[q]
    {
      FullIsLastView(log, p, Full(log)[p]);
      FullIsLastView(log, q, Full(log)[q]);
      var i: nat :| Survives(log, i, p, Full(log)[p]);
      var j: nat :| Survives(log, j, q, Full(log)[q]);
    }
  }

  lemma FullIsBefore(log: seq<Act>, p: Key)
    requires log != [] && Clocked(log) && log[|log| - 1].Seen? && p in Full(log[..|log| - 1])
    ensures Full(log[..|log| - 1])[p] < log[|log| - 1].at
  {
    var before := log[..|log| - 1];
    FullIsLastView(before, p, Full(before)[p]);
    var i: nat :| Survives(before, i, p, Full(before)[p]);
  }

  // ---------- the newest rows ----------

  lemma Oldest(m: Table) returns (o: Key)
    requires m != map[]
    ensures o in m && forall p :: p in m ==> m[o] <= m[p]
    decreases |m|
  {
    var k :| k in m;
    var rest := m - {k};
    if rest == map[] {
      assert forall p :: p in m && p != k ==> p in rest;
      o := k;
    } else {
      var r := Oldest(rest);
      assert forall p :: p in m && p != k ==> p in rest;
      o := if m[r] < m[k] then r else k;
    }
  }

  lemma NewerWithout(m: Table, o: Key, t: int)
    ensures Newer(m - {o}, t) == Newer(m, t) - {o}
  {
  }

  lemma NewerThanOldest(m: Table, o: Key)
    requires Distinct(m) && o in m && forall p :: p in m ==> m[o] <= m[p]
    ensures |Newer(m, m[o])| == |m| - 1 == |m - {o}|
  {
    OneLess(m, o);
    assert Newer(m, m[o]) == (m - {o}).Keys;
  }

  lemma OneLess(m: Table, p: Key)
    requires p in m
    ensures |m - {p}| == |m| - 1
  {
    assert m.Keys == (m - {p}).Keys + {p};
  }

  lemma KeptWithoutOldest(m: Table, o: Key, limit: nat, p: Key)
    requires o in m && p in m && p != o && m[o] <= m[p]
    ensures p in Newest(m, limit) <==> p in Newest(m - {o}, limit)
  {
    NewerWithout(m, o, m[p]);
    assert Newer(m, m[p]) - {o} == Newer(m, m[p]);
  }

  lemma WithoutOldest(m: Table, o: Key, limit: nat)
    requires Distinct(m) && o in m && forall p :: p in m ==> m[o] <= m[p]
    ensures Newest(m, limit).Keys == Newest(m - {o}, limit).Keys + (if |m| <= limit then {o} else {})
  {
    NewerThanOldest(m, o);
    assert o in Newest(m, limit) <==> |m| <= limit;
    forall p | p in m && p != o
      ensures p in Newest(m, limit) <==> p in Newest(m - {o}, limit)
    {
      KeptWithoutOldest(m, o, limit, p);
    }
  }

  /** Newest keeps limit rows, or all of them when there are fewer. */
  lemma {:induction false} NewestSize(m: Table, limit: nat)
    requires Distinct(m)
    ensures |Newest(m, limit)| == Min(|m|, limit)
    decreases |m|
  {
    if m != map[] {
      var o := Oldest(m);
      OneLess(m, o);
      WithoutOldest(m, o, limit);
      NewestSize(m - {o}, limit);
    }
  }

  lemma FewerAreNewer(m: Table, p: Key, q: Key)
    requires p in m && q in m && m[q] < m[p]
    ensures |Newer(m, m[p])| < |Newer(m, m[q])|
  {
    assert p in Newer(m, m[q]) && p !in Newer(m, m[p]);
    Smaller(Newer(m, m[p]), Newer(m, m[q]));
  }

  lemma Smaller<T>(a: set<T>, b: set<T>)
    requires a < b
    ensures |a| < |b|
  {
    assert |b - a| > 0 && b == a + (b - a);
  }

  lemma NotLarger<T>(a: set<T>, b: set<T>)
    requires a <= b
    ensures |a| <= |b|
  {
    assert b == a + (b - a);
  }

  /** Trimming before recording the newest view makes no difference. */
  lemma RecordAfterTrim(m: Table, limit: nat, p: Key, t: int)
    requires limit > 0 && forall q :: q in m ==> m[q] < t
    ensures Newest(Newest(m, limit)[p := t], limit) == Newest(m[p := t], limit)
  {
    var small, large := Newest(m, limit)[p := t], m[p := t];
    forall q
      ensures q in Newest(small, limit) <==> q in Newest(large, limit)
    {
      if q == p {
        assert Newer(small, t) == {} && Newer(large, t) == {};
      } else if q in m {
        NotLarger(Newer(m, m[q]), Newer(large, m[q]) + {p});
        if q in Newest(m, limit) {
          SameNewer(m, limit, p, t, q);
        } else {
          RecordingAddsNewer(m, p, t, q);
        }
      }
    }
  }

  lemma SameNewer(m: Table, limit: nat, p: Key, t: int, q: Key)
    requires q in Newest(m, limit) && q != p && m[q] < t
    ensures Newer(Newest(m, limit)[p := t], m[q]) == Newer(m[p := t], m[q])
  {
    forall r | r in m && m[r] > m[q]
      ensures r in Newest(m, limit)
    {
      FewerAreNewer(m, r, q);
    }
  }

  lemma RecordingAddsNewer(m: Table, p: Key, t: int, q: Key)
    requires q in m && q != p && m[q] < t
    ensures |Newer(m, m[q])| <= |Newer(m[p := t], m[q])|
  {
    NotLarger(Newer(m, m[q]), Newer(m[p := t], m[q]));
  }

  /** The ninety-day purge and the trim may be done in either order. */
  lemma PurgeCommutesWithTrim(m: Table, limit: nat, cutoff: int)
    ensures Newest(Since(m, cutoff), limit) == Since(Newest(m, limit), cutoff)
  {
    forall p | p in m && m[p] >= cutoff
      ensures Newer(Since(m, cutoff), m[p]) == Newer(m, m[p])
    {
    }
  }

  /** One act on the bounded table is the same act on the unbounded one, trimmed. */
  lemma ActsCommuteWithTrim(m: Table, a: Act, limit: nat)
    requires limit > 0 && (a.Seen? || a.Purge?)
    requires a.Seen? ==> forall q :: q in m ==> m[q] < a.at
    ensures Kept(Newest(m, limit), a, limit) == Newest(Grow(m, a), limit)
  {
    match a
    case Seen(p, at) => RecordAfterTrim(m, limit, p, at);
    case Purge(now) => PurgeCommutesWithTrim(m, limit, now - RETENTION);
  }

  /** Over any run of views and purges the bounded table is exactly the limit newest keys of the unbounded history,
      although it trims after every view and purges only what it still has. */
  lemma {:induction false} StoreIsNewest(log: seq<Act>, limit: nat)
    requires limit > 0 && Clocked(log) && NoClears(log)
    ensures Stored(log, limit) == Newest(Full(log), limit)
  {
    if log != [] {
      var before, a := log[..|log| - 1], log[|log| - 1];
      StoreIsNewest(before, limit);
      if a.Seen? {
        forall q | q in Full(before)
          ensures Full(before)[q] < a.at
        {
          FullIsBefore(log, q);
        }
      }
      ActsCommuteWithTrim(Full(before), a, limit);
    }
  }

  /** The table holds as many rows as the history, up to the limit. */
  lemma StoreSize(log: seq<Act>, limit: nat)
    requires limit > 0 && Clocked(log) && NoClears(log)
    ensures |Stored(log, limit)| == Min(|Full(log)|, limit)
  {
    StoreIsNewest(log, limit);
    FullIsDistinct(log);
    NewestSize(Full(log), limit);
  }

  // ---------- with the user's own deletions ----------

  /** m holds the newest rows of full, as many as it holds. */
  ghost predicate Top(m: Table, full: Table) {
    && (forall p :: p in m ==> p in full && full[p] == m[p])
    && (forall p, q :: p in m && q in full && full[q] > full[p] ==> q in m)
  }

  lemma NewestIsTop(m: Table, limit: nat)
    ensures Top(Newest(m, limit), m)
  {
    forall p, q | p in Newest(m, limit) && q in m && m[q] > m[p]
      ensures q in Newest(m, limit)
    {
      FewerAreNewer(m, q, p);
    }
  }

  lemma RecordingKeepsTop(m: Table, full: Table, p: Key, t: int, limit: nat)
    requires Top(m, full) && Distinct(full[p := t]) && forall q :: q in full ==> full[q] < t
    ensures Top(Newest(m[p := t], limit), full[p := t]) && |Newest(m[p := t], limit)| <= limit
  {
    var grown := m[p := t];
    assert Top(grown, full[p := t]);
    NewestIsTop(grown, limit);
    assert Distinct(grown);
    NewestSize(grown, limit);
  }

  /** Whatever the user deletes, the table holds the newest surviving rows and at most limit of them. */
  lemma {:induction false} StoreIsAlwaysTheTop(log: seq<Act>, limit: nat)
    requires Clocked(log)
    ensures Top(Stored(log, limit), Full(log)) && |Stored(log, limit)| <= limit
  {
    if log != [] {
      var n := |log| - 1;
      StoreIsAlwaysTheTop(log[..n], limit);
      if log[n].Seen? {
        FullIsDistinct(log);
        forall q | q in Full(log[..n])
          ensures Full(log[..n])[q] < log[n].at
        {
          FullIsBefore(log, q);
        }
        RecordingKeepsTop(Stored(log[..n], limit), Full(log[..n]), log[n].key, log[n].at, limit);
      } else {
        NotLarger(Stored(log, limit).Keys, Stored(log[..n], limit).Keys);
      }
    }
  }

  lemma {:induction false} TopIsNewest(m: Table, full: Table)
    requires Top(m, full) && Distinct(full)
    ensures m == Newest(full, |m|)
  {
    forall p | p in full
      ensures p in m <==> |Newer(full, full[p])| < |m|
    {
      if p in m {
        assert Newer(full, full[p]) <= m.Keys && p !in Newer(full, full[p]);
        Smaller(Newer(full, full[p]), m.Keys);
      } else {
        assert forall q :: q in m ==> full[q] > full[p] by {
          forall q | q in m
            ensures full[q] > full[p]
          {
            assert full[q] != full[p];
          }
        }
        NotLarger(m.Keys, Newer(full, full[p]));
      }
    }
  }

  /** Deleting one key keeps the table equal to the newest rows exactly when the key was not shown or nothing had been
      trimmed: a row that was trimmed earlier does not come back to fill the gap. */
  lemma ClearKeepsNewestIff(full: Table, limit: nat, p: Key)
    requires Distinct(full)
    ensures Newest(full, limit) - {p} == Newest(full - {p}, limit) <==> p !in Newest(full, limit) || |full| <= limit
  {
    if p in Newest(full, limit) {
      ClearingShownIff(full, limit, p);
    } else if p in full {
      ClearingHidden(full, limit, p);
    } else {
      assert full - {p} == full;
    }
  }

  lemma ClearingShownIff(full: Table, limit: nat, p: Key)
    requires Distinct(full) && p in Newest(full, limit)
    ensures Newest(full, limit) - {p} == Newest(full - {p}, limit) <==> |full| <= limit
  {
    ClearedSizes(full, limit, p);
    if |full| <= limit {
      AllAreNewest(full, limit);
      AllAreNewest(full - {p}, limit);
    }
  }

  lemma ClearingHidden(full: Table, limit: nat, p: Key)
    requires Distinct(full) && p in full && p !in Newest(full, limit)
    ensures Newest(full, limit) - {p} == Newest(full - {p}, limit)
  {
    var rest := full - {p};
    forall q
      ensures q in Newest(full, limit) <==> q in Newest(rest, limit)
    {
      if q in full && q != p {
        ClearingOlder(full, limit, p, q);
      }
    }
  }

  lemma ClearedSizes(full: Table, limit: nat, p: Key)
    requires Distinct(full) && p in Newest(full, limit)
    ensures |Newest(full, limit) - {p}| == Min(|full|, limit) - 1
    ensures |full - {p}| == |full| - 1
    ensures |Newest(full - {p}, limit)| == Min(|full| - 1, limit)
  {
    NewestSize(full, limit);
    NewestSize(full - {p}, limit);
    OneLess(full, p);
    OneLess(Newest(full, limit), p);
  }

  /** From the log on: after a deletion the table is again the limit newest keys exactly under that condition. */
  lemma StoreAfterClearIff(log: seq<Act>, limit: nat, p: Key)
    requires limit > 0 && Clocked(log) && NoClears(log)
    ensures Stored(log + [Clear(p)], limit) == Newest(Full(log + [Clear(p)]), limit)
            <==> p !in Stored(log, limit) || |Full(log)| <= limit
  {
    assert (log + [Clear(p)])[..|log|] == log;
    StoreIsNewest(log, limit);
    FullIsDistinct(log);
    ClearKeepsNewestIff(Full(log), limit, p);
  }

  /** n different keys, seen one after the other. */
  function Views(n: nat): (log: seq<Act>)
    ensures |log| == n && forall i :: 0 <= i < n ==> log[i] == Seen(NthKey(i), i)
  {
    seq(n, i requires 0 <= i < n => Seen(NthKey(i), i))
  }

  function NthKey(i: nat): (p: Key)
    ensures |p| == i
  {
    seq(i, _ => 'k')
  }

  lemma {:induction false} ViewsAreAllKept(n: nat)
    ensures |Full(Views(n))| == n && forall p :: p in Full(Views(n)) ==> |p| < n
  {
    if n > 0 {
      ViewsAreAllKept(n - 1);
      assert Views(n)[..n - 1] == Views(n - 1);
      assert NthKey(n - 1) !in Full(Views(n - 1));
    }
  }

  /** For every limit, a log after which deleting the newest key leaves one row too few: one more key was seen than the
      table holds, and the one that was trimmed does not come back. */
  lemma DeletionLeavesGap(limit: nat) returns (log: seq<Act>, p: Key)
    requires limit > 0
    ensures Clocked(log) && NoClears(log) && p in Stored(log, limit)
    ensures |Full(log + [Clear(p)])| == limit && |Newest(Full(log + [Clear(p)]), limit)| == limit
    ensures |Stored(log + [Clear(p)], limit)| == limit - 1
  {
    log, p := Views(limit + 1), NthKey(limit);
    var after := log + [Clear(p)];
    assert after[..|log|] == log && log[..limit] == Views(limit);
    ViewsAreAllKept(limit + 1);
    StoreSize(log, limit);
    StoreIsNewest(log, limit);
    NewestViewIsStored(limit);
    OneLess(Full(log), p);
    OneLess(Stored(log, limit), p);
    AllAreNewest(Full(after), limit);
  }

  lemma NewestViewIsStored(limit: nat)
    requires limit > 0
    ensures NthKey(limit) in Newest(Full(Views(limit + 1)), limit)
  {
    var log, p := Views(limit + 1), NthKey(limit);
    assert log[..limit] == Views(limit);
    assert p in Full(log) && Full(log)[p] == limit;
    forall q | q in Full(log)
      ensures Full(log)[q] <= limit
    {
      FullIsLastView(log, q, Full(log)[q]);
      var i: nat :| Survives(log, i, q, Full(log)[q]);
    }
    assert Newer(Full(log), limit) == {};
  }

  lemma AllAreNewest(m: Table, limit: nat)
    requires |m| <= limit
    ensures Newest(m, limit) == m
  {
    forall p | p in m
      ensures |Newer(m, m[p])| < limit
    {
      Smaller(Newer(m, m[p]), m.Keys);
    }
  }

  lemma ClearingOlder(full: Table, limit: nat, p: Key, q: Key)
    requires Distinct(full) && p in full && p !in Newest(full, limit) && q in full && q != p
    ensures q in Newest(full, limit) <==> q in Newest(full - {p}, limit)
  {
    var newer := Newer(full, full[q]);
    NewerWithout(full, p, full[q]);
    if full[p] > full[q] {
      FewerAreNewer(full, p, q);
      assert newer == (newer - {p}) + {p};
      assert |newer - {p}| == |newer| - 1;
    } else {
      assert newer - {p} == newer;
    }
  }

  /** Ninety days are kept: a purge drops exactly the rows that are older. */
  lemma PurgeKeepsNinetyDays(m: Table, now: int, p: Key)
    ensures p in Grow(m, Purge(now)) <==> p in m && m[p] >= now - 7_776_000_000
    ensures p in Grow(m, Purge(now)) ==> Grow(m, Purge(now))[p] == m[p]
  {
  }

  /** A hundred views and fifty searches are kept, whatever was recorded, cleared or purged. */
  lemma TablesStayBounded(views: seq<Act>, searches: seq<Act>)
    requires Clocked(views) && Clocked(searches)
    ensures |Stored(views, VIEW_LIMIT)| <= 100 && |Stored(searches, SEARCH_LIMIT)| <= 50
    ensures NoClears(views) && |Full(views)| >= 100 ==> |Stored(views, VIEW_LIMIT)| == 100
    ensures NoClears(searches) && |Full(searches)| >= 50 ==> |Stored(searches, SEARCH_LIMIT)| == 50
  {
    StoreIsAlwaysTheTop(views, VIEW_LIMIT);
    StoreIsAlwaysTheTop(searches, SEARCH_LIMIT);
    if NoClears(views) {
      StoreSize(views, VIEW_LIMIT);
    }
    if NoClears(searches) {
      StoreSize(searches, SEARCH_LIMIT);
    }
  }

  // ---------- the service ----------

  /** The answer of a query sorted newest first: every key once; equal times may come in any order. */
  ghost predicate NewestFirst(order: seq<Key>, m: Table) {
    && (forall p :: p in order <==> p in m)
    && (forall i, j :: 0 <= i < j < |order| ==> order[i] != order[j])
    && (forall i, j :: 0 <= i < j < |order| ==> m[order[i]] >= m[order[j]])
  }

  /** kept are limit rows of m, or all of them, and no row left out is newer than a row kept. */
  ghost predicate TrimmedTo(m: Table, kept: Table, limit: nat) {
    && (forall p :: p in kept ==> p in m && kept[p] == m[p])
    && |kept| == Min(|m|, limit)
    && (forall p, q :: p in kept && q in m && q !in kept ==> m[p] >= m[q])
  }

  lemma {:induction false} AsManyAsKeys(order: seq<Key>, keys: set<Key>)
    requires forall p :: p in order <==> p in keys
    requires forall i, j :: 0 <= i < j < |order| ==> order[i] != order[j]
    ensures |order| == |keys|
    decreases |order|
  {
    if order == [] {
      assert keys == {};
    } else {
      var n := |order| - 1;
      forall p
        ensures p in order[..n] <==> p in keys - {order[n]}
      {
        if p in order && p != order[n] {
          var i :| 0 <= i < |order| && order[i] == p;
          assert order[..n][i] == p;
        }
      }
      AsManyAsKeys(order[..n], keys - {order[n]});
    }
  }

  lemma TrimmedIsNewest(m: Table, kept: Table, limit: nat)
    requires TrimmedTo(m, kept, limit) && Distinct(m)
    ensures kept == Newest(m, limit)
  {
    if |m| <= limit {
      AllAreNewest(m, limit);
      assert kept.Keys <= m.Keys && |kept.Keys| == |m.Keys|;
      if kept.Keys != m.Keys {
        Smaller(kept.Keys, m.Keys);
      }
    } else {
      TopIsNewest(kept, m);
    }
  }

  /** Sort newest first, skip limit rows, delete the rest. */
  method Trim(rows: Table, order: seq<Key>, limit: nat) returns (kept: Table)
    requires NewestFirst(order, rows)
    ensures TrimmedTo(rows, kept, limit)
    ensures Distinct(rows) ==> kept == Newest(rows, limit)
  {
    var stale := order[Min(|order|, limit)..];
    kept := rows;
    if stale != [] {
      kept := rows - set p | p in stale;
    }
    forall p
      ensures p in kept <==> p in order[..Min(|order|, limit)]
    {
      FrontOrBack(order, Min(|order|, limit), p);
    }
    KeptInOrder(rows, order, limit, kept);
    if Distinct(rows) {
      TrimmedIsNewest(rows, kept, limit);
    }
  }

  /** A key stands either in the first n places or behind them. */
  lemma FrontOrBack(order: seq<Key>, n: nat, p: Key)
    requires n <= |order| && forall i, j :: 0 <= i < j < |order| ==> order[i] != order[j]
    ensures p in order[n..] <==> p in order && p !in order[..n]
  {
    if p in order {
      var i :| 0 <= i < |order| && order[i] == p;
      if i < n {
        assert order[..n][i] == p;
      } else {
        assert order[n..][i - n] == p;
      }
    }
  }

  lemma FrontIsNewer(m: Table, order: seq<Key>, n: nat, p: Key, q: Key)
    requires NewestFirst(order, m) && n <= |order| && p in order[..n] && q in order && q !in order[..n]
    ensures p in m && q in m && m[p] >= m[q]
  {
    FrontOrBack(order, n, q);
    var i :| 0 <= i < n && order[..n][i] == p;
    var j :| 0 <= j < |order| - n && order[n..][j] == q;
    assert order[i] == p && order[n + j] == q;
  }

  lemma KeptInOrder(rows: Table, order: seq<Key>, limit: nat, kept: Table)
    requires NewestFirst(order, rows)
    requires forall p :: p in kept <==> p in order[..Min(|order|, limit)]
    requires forall p :: p in kept ==> p in rows && kept[p] == rows[p]
    ensures TrimmedTo(rows, kept, limit)
  {
    var first := order[..Min(|order|, limit)];
    AsManyAsKeys(order, rows.Keys);
    AsManyAsKeys(first, kept.Keys);
    forall p, q | p in kept && q in rows && q !in kept
      ensures rows[p] >= rows[q]
    {
      FrontIsNewer(rows, order, |first|, p, q);
    }
  }

  /** Every view in the log came before t. */
  ghost predicate Before(log: seq<Act>, t: int) {
    forall i :: 0 <= i < |log| && log[i].Seen? ==> log[i].at < t
  }

  /** The table is what the log leaves. */
  ghost predicate LeftBy(m: Table, log: seq<Act>, limit: nat) {
    Clocked(log) && m == Stored(log, limit)
  }

  lemma RecordingIsDistinct(m: Table, log: seq<Act>, limit: nat, p: Key, now: int)
    requires LeftBy(m, log, limit) && Before(log, now)
    ensures Distinct(m[p := now])
  {
    StoreIsAlwaysTheTop(log, limit);
    FullIsDistinct(log);
    forall q | q in m
      ensures m[q] < now
    {
      FullIsLastView(log, q, m[q]);
      var i: nat :| Survives(log, i, q, m[q]);
    }
  }

  lemma LogGrows(m: Table, log: seq<Act>, limit: nat, a: Act)
    requires LeftBy(m, log, limit) && (a.Seen? ==> Before(log, a.at))
    ensures LeftBy(Kept(m, a, limit), log + [a], limit)
  {
    assert (log + [a])[..|log|] == log;
  }

  /** The logs record, for the proof alone, what was done to each table since the beginning. */
  class PropertyBrowsing {
    var views: Table
    var searches: Table
    ghost var viewLog: seq<Act>
    ghost var searchLog: seq<Act>

    /** Both tables are what their logs leave; by StoreIsAlwaysTheTop they hold the newest rows within their limits. */
    ghost predicate Valid()
      reads this
    {
      LeftBy(views, viewLog, VIEW_LIMIT) && LeftBy(searches, searchLog, SEARCH_LIMIT)
    }

    constructor ()
      ensures views == map[] && searches == map[] && viewLog == [] && searchLog == [] && Valid()
    {
      views, searches, viewLog, searchLog := map[], map[], [], [];
    }

    /** active says that the property is publicly listed; order is the sorted query's answer. */
    method RecordView(property: Key, active: bool, now: int, order: seq<Key>) returns (found: bool)
      requires active ==> NewestFirst(order, views[property := now])
      modifies this`views, this`viewLog
      ensures found == active
      ensures !active ==> views == old(views) && viewLog == old(viewLog)
      ensures active ==> viewLog == old(viewLog) + [Seen(property, now)]
      ensures active ==> TrimmedTo(old(views)[property := now], views, VIEW_LIMIT)
      ensures old(Valid()) && Before(old(viewLog), now) ==> Valid()
    {
      if !active {
        return false;
      }
      if Valid() && Before(viewLog, now) {
        RecordingIsDistinct(views, viewLog, VIEW_LIMIT, property, now);
        LogGrows(views, viewLog, VIEW_LIMIT, Seen(property, now));
      }
      views := Trim(views[property := now], order, VIEW_LIMIT);
      viewLog := viewLog + [Seen(property, now)];
      return true;
    }

    method RecordSearch(signature: Key, now: int, order: seq<Key>)
      requires NewestFirst(order, searches[signature := now])
      modifies this`searches, this`searchLog
      ensures searchLog == old(searchLog) + [Seen(signature, now)]
      ensures TrimmedTo(old(searches)[signature := now], searches, SEARCH_LIMIT)
      ensures old(Valid()) && Before(old(searchLog), now) ==> Valid()
    {
      if Valid() && Before(searchLog, now) {
        RecordingIsDistinct(searches, searchLog, SEARCH_LIMIT, signature, now);
        LogGrows(searches, searchLog, SEARCH_LIMIT, Seen(signature, now));
      }
      searches := Trim(searches[signature := now], order, SEARCH_LIMIT);
      searchLog := searchLog + [Seen(signature, now)];
    }

    method PurgeOld(now: int)
      modifies this
      ensures views == Since(old(views), now - RETENTION) && searches == Since(old(searches), now - RETENTION)
      ensures viewLog == old(viewLog) + [Purge(now)] && searchLog == old(searchLog) + [Purge(now)]
      ensures old(Valid()) ==> Valid()
    {
      if Valid() {
        LogGrows(views, viewLog, VIEW_LIMIT, Purge(now));
        LogGrows(searches, searchLog, SEARCH_LIMIT, Purge(now));
      }
      var cutoff := now - RETENTION;
      views := views - set p | p in views && views[p] < cutoff;
      searches := searches - set p | p in searches && searches[p] < cutoff;
      viewLog, searchLog := viewLog + [Purge(now)], searchLog + [Purge(now)];
    }

    method ClearViews(property: Option<Key>) returns (deleted: nat)
      modifies this`views, this`viewLog
      ensures views == (if property.Some? then old(views) - {property.value} else map[])
      ensures viewLog == old(viewLog) + [if property.Some? then Clear(property.value) else ClearAll]
      ensures deleted == |old(views)| - |views|
      ensures old(Valid()) ==> Valid()
    {
      ghost var act := if property.Some? then Clear(property.value) else ClearAll;
      if Valid() {
        LogGrows(views, viewLog, VIEW_LIMIT, act);
      }
      var before := views;
      if property.Some? {
        views := views - {property.value};
        NotLarger(views.Keys, before.Keys);
      } else {
        views := map[];
      }
      viewLog := viewLog + [act];
      deleted := |before| - |views|;
    }
  }
}
