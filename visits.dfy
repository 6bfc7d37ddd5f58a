/**
 * The visit tracker of the data service: a per-tab session id, a presence
 * row per session, and a per-day guard key in `localStorage` that keeps the
 * visit counters from being incremented again once today's increment has
 * gone through; and the visitor statistics read back from the counters.
 */
module Visits {
  import opened Wrappers
  import opened Storage
  import opened Remote

  const SessionKey: string := "visitor_session_id"
  const VisitKeyPrefix: string := "site_visit_"
  /** The text the guard key is set to. */
  const GuardText: string := "true"

  /** `'site_visit_' + today`, `today` being the date part of the current ISO timestamp. */
  function VisitKey(today: string): string {
    VisitKeyPrefix + today
  }

  /** A `visitor_logs` row: the session's last activity. */
  datatype VisitorLog = VisitorLog(lastActive: int)

  /** The remote `increment_visit_counters` procedure, seen as the number of times it was called. */
  class VisitCounter {
    var calls: nat

    constructor (init: nat)
      ensures calls == init
    {
      calls := init;
    }

    method Increment()
      modifies this
      ensures calls == old(calls) + 1
    {
      calls := calls + 1;
    }
  }

  /** `sessionStorage.getItem('visitor_session_id') || crypto.randomUUID()`. */
  function SessionIdFor(items: map<string, string>, freshUuid: string): string {
    if SessionKey in items && items[SessionKey] != "" then items[SessionKey] else freshUuid
  }

  /**
   * Once a session id is stored, every later visit in the tab reuses it: the
   * next fresh UUID is ignored. UUIDs are never empty.
   */
  lemma SessionIdKept(items: map<string, string>, uuid1: string, uuid2: string)
    requires uuid1 != ""
    ensures SessionIdFor(items[SessionKey := SessionIdFor(items, uuid1)], uuid2) == SessionIdFor(items, uuid1)
    ensures SessionKey in items && items[SessionKey] != "" ==> SessionIdFor(items, uuid1) == items[SessionKey]
  {
  }

  /**
   * `trackVisit`. `sessionAccepted` is false when writing the session id
   * throws: the exception is caught and nothing further happens.
   * `logWritten` is whether the store took the presence upsert, whose
   * outcome the service never looks at. The
   * increment is issued only when today's guard is absent; the guard is
   * written by the increment's continuation, returned here as `pendingGuard`
   * and applied by `SettleIncrement` once the call has resolved.
   */
  method TrackVisit(session: SessionStorage, store: LocalStorage, logs: Table<VisitorLog>, counter: VisitCounter,
                    freshUuid: string, now: int, today: string, sessionAccepted: bool, logWritten: bool)
    returns (pendingGuard: Option<string>)
    modifies session, logs, counter
    ensures var sid := SessionIdFor(old(session.items), freshUuid);
      && session.items == (if sessionAccepted then old(session.items)[SessionKey := sid] else old(session.items))
      && logs.rows == (if sessionAccepted && logWritten then old(logs.rows)[sid := VisitorLog(now)] else old(logs.rows))
    ensures var issue := sessionAccepted && !ItemTruthy(store.items, VisitKey(today));
      && counter.calls == old(counter.calls) + (if issue then 1 else 0)
      && pendingGuard == (if issue then Some(VisitKey(today)) else None)
  {
    var existing := session.GetItem(SessionKey);
    var sessionId := if existing.Some? && existing.value != "" then existing.value else freshUuid;
    session.SetItem(SessionKey, sessionId, sessionAccepted);
    if !sessionAccepted {
      return None;
    }
    if logWritten {
      logs.Upsert(sessionId, VisitorLog(now));
    }
    var visitKey := VisitKey(today);
    var seen := store.GetItem(visitKey);
    if !seen {
      counter.Increment();
      pendingGuard := Some(visitKey);
    } else {
      pendingGuard := None;
    }
  }

  /** The increment's continuation: `localStorage.setItem(visitKey, 'true')`, whatever the call returned. */
  method SettleIncrement(store: LocalStorage, guardKey: string, accepted: bool)
    modifies store
    ensures store.items == if accepted then old(store.items)[guardKey := Raw(GuardText)] else old(store.items)
  {
    store.SetItem(guardKey, GuardText, accepted);
  }

  /** Two visits on the same day, the first one's increment settled in between: one increment at most. */
  method SameDayVisits(session: SessionStorage, store: LocalStorage, logs: Table<VisitorLog>, counter: VisitCounter,
                       uuid1: string, uuid2: string, t1: int, t2: int, today: string)
    modifies session, store, logs, counter
    ensures counter.calls <= old(counter.calls) + 1
    ensures ItemTruthy(store.items, VisitKey(today))
  {
    var pending := TrackVisit(session, store, logs, counter, uuid1, t1, today, true, true);
    if pending.Some? {
      SettleIncrement(store, pending.value, true);
    }
    pending := TrackVisit(session, store, logs, counter, uuid2, t2, today, true, true);
    assert pending.None?;
  }

  /** Two visits whose first increment has not resolved yet both increment: the guard is written only afterwards. */
  method OverlappingVisits(session: SessionStorage, store: LocalStorage, logs: Table<VisitorLog>, counter: VisitCounter,
                           uuid1: string, uuid2: string, t1: int, t2: int, today: string)
    requires !ItemTruthy(store.items, VisitKey(today))
    modifies session, logs, counter
    ensures counter.calls == old(counter.calls) + 2
  {
    var first := TrackVisit(session, store, logs, counter, uuid1, t1, today, true, true);
    var second := TrackVisit(session, store, logs, counter, uuid2, t2, today, true, true);
  }

  /**
   * Two accepted visits in the same tab carry the same session id, so the
   * second refreshes the first one's presence row instead of adding one.
   */
  method RepeatVisitKeepsSession(session: SessionStorage, store: LocalStorage, logs: Table<VisitorLog>,
                                 counter: VisitCounter, uuid1: string, uuid2: string, t1: int, t2: int, today: string)
    requires uuid1 != ""
    modifies session, logs, counter
    ensures var sid := SessionIdFor(old(session.items), uuid1);
      && SessionKey in session.items && session.items[SessionKey] == sid
      && logs.rows == old(logs.rows)[sid := VisitorLog(t2)]
  {
    SessionIdKept(session.items, uuid1, uuid2);
    var first := TrackVisit(session, store, logs, counter, uuid1, t1, today, true, true);
    var second := TrackVisit(session, store, logs, counter, uuid2, t2, today, true, true);
  }

  /** A `site_counters` row: a counter's key and its value as text. */
  datatype CounterRow = CounterRow(key: string, value: string)

  datatype VisitorStats = VisitorStats(total: int, today: int, month: int, online: int)

  const NeutralStats: VisitorStats := VisitorStats(0, 0, 0, 1)

  /** `statsMap` after `forEach(c => statsMap[c.key] = parseInt(c.value))` over `rows`; `None` is NaN. */
  function StatsMapOf(rows: seq<CounterRow>, parseInt: string -> Option<int>): map<string, Option<int>>
    decreases |rows|
  {
    if rows == [] then map[]
    else StatsMapOf(rows[..|rows| - 1], parseInt)[rows[|rows| - 1].key := parseInt(rows[|rows| - 1].value)]
  }

  /** `statsMap[key] || 0`: a missing key, NaN and 0 all read as 0. */
  function StatOrZero(m: map<string, Option<int>>, key: string): int {
    if key in m && m[key].Some? then m[key].value else 0
  }

  /** `parseInt(text) || 0`. */
  function ParsedOrZero(text: string, parseInt: string -> Option<int>): int {
    parseInt(text).GetOr(0)
  }

  /** A counter no row carries reads as 0. */
  lemma {:induction false} AbsentCounterReadsZero(rows: seq<CounterRow>, parseInt: string -> Option<int>, key: string)
    requires forall j :: 0 <= j < |rows| ==> rows[j].key != key
    ensures key !in StatsMapOf(rows, parseInt)
    ensures StatOrZero(StatsMapOf(rows, parseInt), key) == 0
    decreases |rows|
  {
    if rows != [] {
      var init := rows[..|rows| - 1];
      assert forall j :: 0 <= j < |init| ==> init[j] == rows[j];
      AbsentCounterReadsZero(init, parseInt, key);
      assert rows[|rows| - 1].key != key;
    }
  }

  /**
   * A counter reads as the parsed value of the last row carrying its key,
   * NaN reading as 0.
   */
  lemma {:induction false} LastCounterRowWins(rows: seq<CounterRow>, parseInt: string -> Option<int>, key: string, j: int)
    requires 0 <= j < |rows| && rows[j].key == key
    requires forall l :: j < l < |rows| ==> rows[l].key != key
    ensures key in StatsMapOf(rows, parseInt) && StatsMapOf(rows, parseInt)[key] == parseInt(rows[j].value)
    ensures StatOrZero(StatsMapOf(rows, parseInt), key) == ParsedOrZero(rows[j].value, parseInt)
    decreases |rows|
  {
    var last := |rows| - 1;
    if j < last {
      var init := rows[..last];
      assert init[j] == rows[j];
      assert forall l :: j < l < |init| ==> init[l] == rows[l];
      LastCounterRowWins(init, parseInt, key, j);
      assert rows[last].key != key;
    }
  }

  /**
   * `getVisitorStats`. `counters` is the `site_counters` listing (null when
   * nothing came back), `onlineCount` the count of sessions active in the
   * last ten minutes, `parseInt` stands for JavaScript's `parseInt`, and
   * `failed` for an exception anywhere in the read, which yields the neutral
   * record `{0, 0, 0, 1}`.
   */
  method GetVisitorStats(counters: Option<seq<CounterRow>>, onlineCount: Option<int>,
                         parseInt: string -> Option<int>, failed: bool)
    returns (stats: VisitorStats)
    ensures failed ==> stats == NeutralStats
    ensures !failed ==>
      var m := if counters.Some? then StatsMapOf(counters.value, parseInt) else map[];
      && stats.total == StatOrZero(m, "total_visits")
      && stats.today == StatOrZero(m, "today_visits")
      && stats.month == StatOrZero(m, "month_visits")
    ensures !failed ==> stats.online == if onlineCount.Some? && onlineCount.value != 0 then onlineCount.value else 1
  {
    if failed {
      return NeutralStats;
    }
    var statsMap: map<string, Option<int>> := map[];
    if counters.Some? {
      var rows := counters.value;
      var i := 0;
      while i < |rows|
        invariant 0 <= i <= |rows|
        invariant statsMap == StatsMapOf(rows[..i], parseInt)
      {
        assert rows[..i + 1][..i] == rows[..i];
        statsMap := statsMap[rows[i].key := parseInt(rows[i].value)];
        i := i + 1;
      }
      assert rows[..|rows|] == rows;
    }
    var online := if onlineCount.Some? && onlineCount.value != 0 then onlineCount.value else 1;
    stats := VisitorStats(StatOrZero(statsMap, "total_visits"), StatOrZero(statsMap, "today_visits"),
                          StatOrZero(statsMap, "month_visits"), online);
  }
}
