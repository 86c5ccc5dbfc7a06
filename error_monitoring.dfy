/** The in-memory error monitor: a bounded buffer of error and warning reports,
    per-key occurrence counters in a five-minute window, named alert thresholds,
    and the read-side queries (recent errors, summary) and the age-based purge.
    The clock and the generated report ids are parameters; an alert that fires is
    recorded in `alerts` instead of being logged. */
module ErrorMonitoring {
  import opened Common

  /** At most this many reports are kept. */
  const MaxReports: nat := 1000
  /** Occurrences of a key count together while they are less than this many milliseconds apart. */
  const CountWindow: int := 300000
  /** How many characters of the message go into an error key. */
  const KeyMessageLength: nat := 100
  const MillisPerHour: int := 3600000
  const MillisPerDay: int := 86400000
  /** The default `limit` of `getRecentErrors` and the default `maxAgeHours` of `clearOldReports`. */
  const DefaultRecentLimit: int := 50
  const DefaultMaxAgeHours: int := 24

  datatype Level = Error | Warning | Info

  /** A report; `timestamp` is the clock reading in milliseconds. */
  datatype ErrorReport = ErrorReport(
    id: string,
    timestamp: int,
    level: Level,
    message: string,
    stack: Option<string>,
    context: Option<string>,
    userId: Option<string>,
    metadata: Option<Record>,
    handled: bool)

  /** What was thrown: its `message` property, its `String(...)` rendering and its `stack`. */
  datatype Thrown = Thrown(message: Option<string>, text: string, stack: Option<string>)

  datatype Channel = Email | Slack | Webhook

  datatype AlertConfig = AlertConfig(threshold: int, timeWindow: int, notificationChannels: seq<Channel>)

  datatype CountInfo = CountInfo(count: nat, timestamp: int)

  /** An alert that fired: its name, the report that fired it and the count it saw. */
  datatype Alert = Alert(name: string, report: ErrorReport, count: nat)

  /** `errorsByContext` and `errorsByDay` are objects whose keys keep their insertion order. */
  datatype Summary = Summary(
    totalErrors: nat,
    totalWarnings: nat,
    errorsByContext: seq<(string, nat)>,
    errorsByDay: seq<(int, nat)>)

  // ---------------------------------------------------------------------------
  // Reports and keys

  /** `error.message || String(error)`. */
  function ReportMessage(error: Thrown): string {
    OrElse(error.message, error.text)
  }

  /** `context || 'unknown'`. */
  function ContextLabel(context: Option<string>): string {
    OrElse(context, "unknown")
  }

  /** `s.substring(0, n)` for n >= 0. */
  function Substring(s: string, n: nat): (p: string)
    ensures |p| == if |s| < n then |s| else n
    ensures p == s[..|p|]
  {
    if |s| < n then s else s[..n]
  }

  /** `getErrorKey`: the first 100 characters of the message, '-', and the context name. */
  function ErrorKey(r: ErrorReport): string {
    Substring(r.message, KeyMessageLength) + "-" + ContextLabel(r.context)
  }

  /** Reports whose messages agree on the first 100 characters and whose contexts have the
      same name share a key; a short message appears whole at the front of its key. */
  lemma ErrorKeyGroups(r1: ErrorReport, r2: ErrorReport)
    requires Substring(r1.message, KeyMessageLength) == Substring(r2.message, KeyMessageLength)
    requires ContextLabel(r1.context) == ContextLabel(r2.context)
    ensures ErrorKey(r1) == ErrorKey(r2)
    ensures |r1.message| <= KeyMessageLength ==> ErrorKey(r1)[..|r1.message|] == r1.message
  {
    if |r1.message| <= KeyMessageLength {
      var p := Substring(r1.message, KeyMessageLength);
      assert ErrorKey(r1) == p + ("-" + ContextLabel(r1.context));
    }
  }

  /** Messages that differ within their first 100 characters, under the same context name,
      get different keys. */
  lemma ErrorKeySeparates(r1: ErrorReport, r2: ErrorReport)
    requires Substring(r1.message, KeyMessageLength) != Substring(r2.message, KeyMessageLength)
    requires ContextLabel(r1.context) == ContextLabel(r2.context)
    ensures ErrorKey(r1) != ErrorKey(r2)
  {
    var p1, p2 := Substring(r1.message, KeyMessageLength), Substring(r2.message, KeyMessageLength);
    var c := "-" + ContextLabel(r1.context);
    assert ErrorKey(r1) == p1 + c && ErrorKey(r2) == p2 + c;
    if |p1| == |p2| {
      assert (p1 + c)[..|p1|] == p1 && (p2 + c)[..|p2|] == p2;
    } else {
      assert |p1 + c| != |p2 + c|;
    }
  }

  /** `slice(-1000)` once the buffer is over 1000: the most recent 1000 reports, in order. */
  function Trim(rs: seq<ErrorReport>): (t: seq<ErrorReport>)
    ensures |t| == if |rs| > MaxReports then MaxReports else |rs|
    ensures t == rs[|rs| - |t|..]
  {
    if |rs| > MaxReports then rs[|rs| - MaxReports..] else rs
  }

  /** Pushing then trimming keeps the buffer bounded, puts the new report last and keeps
      the reports before it in order. */
  lemma PushThenTrim(rs: seq<ErrorReport>, r: ErrorReport)
    requires |rs| <= MaxReports
    ensures var t := Trim(rs + [r]);
      && 1 <= |t| <= MaxReports
      && t[|t| - 1] == r
      && t[..|t| - 1] == rs[|rs| + 1 - |t|..]
  {
    var t := Trim(rs + [r]);
    assert t[..|t| - 1] == (rs + [r])[|rs| + 1 - |t|..|rs|];
  }

  // ---------------------------------------------------------------------------
  // Counters and alerts

  /** The counter update of `reportError`: within the window the count goes up and the
      timestamp moves to now; otherwise the entry restarts at 1. */
  function Tick(counts: map<string, CountInfo>, key: string, now: int): (r: map<string, CountInfo>)
    ensures key in r
  {
    if key in counts && now - counts[key].timestamp < CountWindow then
      counts[key := CountInfo(counts[key].count + 1, now)]
    else
      counts[key := CountInfo(1, now)]
  }

  /** `Tick` adds `key` and touches no other entry; within the window of the last report
      the count goes up by one, otherwise it restarts at 1, and the timestamp becomes now. */
  lemma TickCounts(counts: map<string, CountInfo>, key: string, now: int)
    ensures Tick(counts, key, now).Keys == counts.Keys + {key}
    ensures forall k :: k in counts && k != key ==> Tick(counts, key, now)[k] == counts[k]
    ensures Tick(counts, key, now)[key].timestamp == now && Tick(counts, key, now)[key].count >= 1
    ensures key in counts && now - counts[key].timestamp < CountWindow ==>
      Tick(counts, key, now)[key].count == counts[key].count + 1
    ensures !(key in counts && now - counts[key].timestamp < CountWindow) ==>
      Tick(counts, key, now)[key].count == 1
  {
  }

  /** The alerts `checkAlerts` fires, in the order of the configs: every config whose
      threshold is at most the count it read. */
  function FiredAlerts(configs: seq<(string, AlertConfig)>, report: ErrorReport, count: nat): seq<Alert>
    decreases |configs|
  {
    if configs == [] then []
    else
      var init, last := configs[..|configs| - 1], configs[|configs| - 1];
      var before := FiredAlerts(init, report, count);
      if last.1.threshold <= count then before + [Alert(last.0, report, count)] else before
  }

  /** At most one alert per config; each alert carries the report and the count read, and
      comes from a config whose threshold the count meets; every such config fires. */
  lemma {:induction false} FiredAlertsMembers(configs: seq<(string, AlertConfig)>, report: ErrorReport, count: nat)
    ensures |FiredAlerts(configs, report, count)| <= |configs|
    ensures forall a :: a in FiredAlerts(configs, report, count) ==>
      a.report == report && a.count == count &&
      exists i :: 0 <= i < |configs| && configs[i].0 == a.name && configs[i].1.threshold <= count
    ensures forall i :: 0 <= i < |configs| && configs[i].1.threshold <= count ==>
      Alert(configs[i].0, report, count) in FiredAlerts(configs, report, count)
    decreases |configs|
  {
    if configs != [] {
      var init := configs[..|configs| - 1];
      FiredAlertsMembers(init, report, count);
      assert forall i :: 0 <= i < |init| ==> init[i] == configs[i];
    }
  }

  /** The entry for `name`, the first one in insertion order. */
  function Lookup(configs: seq<(string, AlertConfig)>, name: string): Option<AlertConfig> {
    if configs == [] then None
    else if configs[0].0 == name then Some(configs[0].1)
    else Lookup(configs[1..], name)
  }

  function Names(configs: seq<(string, AlertConfig)>): seq<string> {
    if configs == [] then [] else [configs[0].0] + Names(configs[1..])
  }

  predicate DistinctNames(configs: seq<(string, AlertConfig)>) {
    configs == [] || (configs[0].0 !in Names(configs[1..]) && DistinctNames(configs[1..]))
  }

  /** `Map.set`: an existing name keeps its place and takes the new config; a new name goes last. */
  function SetEntry(configs: seq<(string, AlertConfig)>, name: string, config: AlertConfig)
    : (r: seq<(string, AlertConfig)>)
    ensures Lookup(r, name) == Some(config)
    ensures forall n :: n != name ==> Lookup(r, n) == Lookup(configs, n)
    ensures Lookup(configs, name).Some? ==> |r| == |configs|
    ensures Lookup(configs, name).None? ==> r == configs + [(name, config)]
    ensures forall n :: n in Names(r) <==> n == name || n in Names(configs)
  {
    if configs == [] then [(name, config)]
    else if configs[0].0 == name then [(name, config)] + configs[1..]
    else [configs[0]] + SetEntry(configs[1..], name, config)
  }

  /** Setting an alert keeps the names distinct. */
  lemma {:induction false} SetEntryKeepsNamesDistinct(configs: seq<(string, AlertConfig)>, name: string, config: AlertConfig)
    requires DistinctNames(configs)
    ensures DistinctNames(SetEntry(configs, name, config))
    decreases |configs|
  {
    if configs != [] && configs[0].0 != name {
      SetEntryKeepsNamesDistinct(configs[1..], name, config);
      var r := SetEntry(configs, name, config);
      assert r[1..] == SetEntry(configs[1..], name, config);
    } else if configs != [] {
      var r := SetEntry(configs, name, config);
      assert r[1..] == configs[1..];
    }
  }

  // ---------------------------------------------------------------------------
  // Queries

  /** `filter(report => report.level === 'error')`. */
  function ErrorsOnly(rs: seq<ErrorReport>): (es: seq<ErrorReport>)
    ensures |es| <= |rs|
    ensures forall r :: r in es <==> r in rs && r.level == Error
  {
    if rs == [] then []
    else if rs[0].level == Error then [rs[0]] + ErrorsOnly(rs[1..])
    else ErrorsOnly(rs[1..])
  }

  function CountLevel(rs: seq<ErrorReport>, level: Level): nat {
    if rs == [] then 0
    else (if rs[0].level == level then 1 else 0) + CountLevel(rs[1..], level)
  }

  /** Errors and warnings never outnumber the reports. */
  lemma {:induction false} ErrorsAndWarningsBounded(rs: seq<ErrorReport>)
    ensures CountLevel(rs, Error) + CountLevel(rs, Warning) <= |rs|
    ensures CountLevel(rs, Error) == |ErrorsOnly(rs)|
    decreases |rs|
  {
    if rs != [] {
      ErrorsAndWarningsBounded(rs[1..]);
    }
  }

  predicate NewestFirst(rs: seq<ErrorReport>) {
    forall i, j :: 0 <= i < j < |rs| ==> rs[i].timestamp >= rs[j].timestamp
  }

  /** Places `r` before the first report that is not newer, so that equal timestamps keep
      their original order. */
  function Insert(r: ErrorReport, sorted: seq<ErrorReport>): seq<ErrorReport> {
    if sorted == [] || sorted[0].timestamp <= r.timestamp then [r] + sorted
    else [sorted[0]] + Insert(r, sorted[1..])
  }

  /** The stable sort by `b.timestamp - a.timestamp`: newest first. */
  function SortNewestFirst(rs: seq<ErrorReport>): seq<ErrorReport> {
    if rs == [] then [] else Insert(rs[0], SortNewestFirst(rs[1..]))
  }

  predicate NoNewerThan(rs: seq<ErrorReport>, t: int) {
    forall i :: 0 <= i < |rs| ==> rs[i].timestamp <= t
  }

  lemma {:induction false} InsertNoNewerThan(r: ErrorReport, sorted: seq<ErrorReport>, t: int)
    requires r.timestamp <= t && NoNewerThan(sorted, t)
    ensures NoNewerThan(Insert(r, sorted), t)
    decreases |sorted|
  {
    if sorted != [] && sorted[0].timestamp > r.timestamp {
      InsertNoNewerThan(r, sorted[1..], t);
    }
  }

  lemma {:induction false} InsertKeepsOrder(r: ErrorReport, sorted: seq<ErrorReport>)
    requires NewestFirst(sorted)
    ensures NewestFirst(Insert(r, sorted))
    decreases |sorted|
  {
    if sorted != [] && sorted[0].timestamp > r.timestamp {
      var head, tail := sorted[0], sorted[1..];
      InsertKeepsOrder(r, tail);
      InsertNoNewerThan(r, tail, head.timestamp);
      var rest := Insert(r, tail);
      var out := [head] + rest;
      forall i, j | 0 <= i < j < |out| ensures out[i].timestamp >= out[j].timestamp {
        if i == 0 {
          assert out[j] == rest[j - 1];
        } else {
          assert out[i] == rest[i - 1] && out[j] == rest[j - 1];
        }
      }
    }
  }

  lemma {:induction false} InsertPermutes(r: ErrorReport, sorted: seq<ErrorReport>)
    ensures multiset(Insert(r, sorted)) == multiset(sorted) + multiset{r}
    decreases |sorted|
  {
    if sorted != [] && sorted[0].timestamp > r.timestamp {
      InsertPermutes(r, sorted[1..]);
      assert sorted == [sorted[0]] + sorted[1..];
    }
  }

  /** The sort yields the same reports, newest first. */
  lemma {:induction false} SortNewestFirstCorrect(rs: seq<ErrorReport>)
    ensures NewestFirst(SortNewestFirst(rs))
    ensures multiset(SortNewestFirst(rs)) == multiset(rs)
    decreases |rs|
  {
    if rs != [] {
      SortNewestFirstCorrect(rs[1..]);
      InsertKeepsOrder(rs[0], SortNewestFirst(rs[1..]));
      InsertPermutes(rs[0], SortNewestFirst(rs[1..]));
      assert rs == [rs[0]] + rs[1..];
    }
  }

  /** `slice(0, limit)`: a negative limit counts back from the end. */
  function SliceEnd(length: nat, limit: int): (end: nat)
    ensures end <= length
  {
    if limit < 0 then (if length + limit < 0 then 0 else length + limit)
    else if limit < length then limit else length
  }

  /** What `getRecentErrors(limit)` returns for a buffer. */
  function RecentErrors(rs: seq<ErrorReport>, limit: int): seq<ErrorReport> {
    var sorted := SortNewestFirst(ErrorsOnly(rs));
    sorted[..SliceEnd(|sorted|, limit)]
  }

  /** In a newest-first list, everything before a cut is at least as new as everything after it. */
  lemma SortedSplit(sorted: seq<ErrorReport>, end: nat)
    requires NewestFirst(sorted) && end <= |sorted|
    ensures forall x, y :: x in sorted[..end] && y in sorted[end..] ==> x.timestamp >= y.timestamp
  {
    forall x, y | x in sorted[..end] && y in sorted[end..] ensures x.timestamp >= y.timestamp {
      var i :| 0 <= i < end && sorted[..end][i] == x;
      var j :| 0 <= j < |sorted| - end && sorted[end..][j] == y;
      assert sorted[i] == x && sorted[end + j] == y;
    }
  }

  /** The recent errors are errors of the buffer, newest first. */
  lemma RecentErrorsOrdered(rs: seq<ErrorReport>, limit: int)
    ensures var out := RecentErrors(rs, limit);
      && NewestFirst(out)
      && (forall r :: r in out ==> r in rs && r.level == Error)
      && multiset(out) <= multiset(ErrorsOnly(rs))
  {
    var es := ErrorsOnly(rs);
    var sorted := SortNewestFirst(es);
    SortNewestFirstCorrect(es);
    var end := SliceEnd(|sorted|, limit);
    var out := sorted[..end];
    assert sorted == out + sorted[end..];
    forall r | r in out ensures r in rs && r.level == Error {
      assert r in multiset(sorted);
    }
  }

  /** No error left out is newer than one returned. */
  lemma RecentErrorsAreNewest(rs: seq<ErrorReport>, limit: int)
    ensures var out := RecentErrors(rs, limit);
      forall x, y :: x in out && y in multiset(ErrorsOnly(rs)) - multiset(out) ==> x.timestamp >= y.timestamp
  {
    var es := ErrorsOnly(rs);
    var sorted := SortNewestFirst(es);
    SortNewestFirstCorrect(es);
    var end := SliceEnd(|sorted|, limit);
    var out, rest := sorted[..end], sorted[end..];
    assert sorted == out + rest;
    SortedSplit(sorted, end);
    forall x, y | x in out && y in multiset(es) - multiset(out) ensures x.timestamp >= y.timestamp {
      assert y in multiset(rest);
    }
  }

  /** Exactly `limit` errors come back when there are that many, otherwise all of them. */
  lemma RecentErrorsLimit(rs: seq<ErrorReport>, limit: int)
    ensures var out := RecentErrors(rs, limit);
      && (limit >= 0 ==> |out| <= limit)
      && (limit >= 0 ==> |out| == if limit < |ErrorsOnly(rs)| then limit else |ErrorsOnly(rs)|)
      && (limit >= |ErrorsOnly(rs)| ==> multiset(out) == multiset(ErrorsOnly(rs)))
  {
    var es := ErrorsOnly(rs);
    var sorted := SortNewestFirst(es);
    SortNewestFirstCorrect(es);
    assert |sorted| == |es| by { assert |multiset(sorted)| == |multiset(es)|; }
    if limit >= |es| {
      assert |sorted| == |es| by { assert |multiset(sorted)| == |multiset(es)|; }
      assert RecentErrors(rs, limit) == sorted;
    }
  }

  // ---------------------------------------------------------------------------
  // Summary

  /** `counts[k] = (counts[k] || 0) + 1` on an insertion-ordered object. */
  function Bump<K(==)>(counts: seq<(K, nat)>, k: K): seq<(K, nat)> {
    if counts == [] then [(k, 1)]
    else if counts[0].0 == k then [(k, counts[0].1 + 1)] + counts[1..]
    else [counts[0]] + Bump(counts[1..], k)
  }

  function CountOf<K(==)>(counts: seq<(K, nat)>, k: K): nat {
    if counts == [] then 0
    else if counts[0].0 == k then counts[0].1
    else CountOf(counts[1..], k)
  }

  function Total<K>(counts: seq<(K, nat)>): nat {
    if counts == [] then 0 else counts[0].1 + Total(counts[1..])
  }

  function Keys<K>(counts: seq<(K, nat)>): seq<K> {
    if counts == [] then [] else [counts[0].0] + Keys(counts[1..])
  }

  predicate DistinctKeys<K(==)>(counts: seq<(K, nat)>) {
    forall i, j :: 0 <= i < j < |counts| ==> counts[i].0 != counts[j].0
  }

  /** One bump adds one to the total and to the bumped key's count, and keeps keys distinct. */
  lemma {:induction false} BumpCounts<K>(counts: seq<(K, nat)>, k: K)
    requires DistinctKeys(counts)
    ensures Total(Bump(counts, k)) == Total(counts) + 1
    ensures CountOf(Bump(counts, k), k) == CountOf(counts, k) + 1
    ensures forall j :: j != k ==> CountOf(Bump(counts, k), j) == CountOf(counts, j)
    ensures DistinctKeys(Bump(counts, k))
    ensures forall j :: j in Keys(Bump(counts, k)) <==> j == k || j in Keys(counts)
    decreases |counts|
  {
    if counts != [] && counts[0].0 != k {
      BumpCounts(counts[1..], k);
      var rest := Bump(counts[1..], k);
      assert forall i :: 0 <= i < |rest| ==> rest[i].0 in Keys(rest) by {
        KeysIndex(rest);
      }
      KeysIndex(counts);
      forall i | 0 <= i < |rest| ensures rest[i].0 != counts[0].0 {
        assert rest[i].0 in Keys(rest);
        if rest[i].0 != k {
          assert rest[i].0 in Keys(counts[1..]);
          KeysIndex(counts[1..]);
          var m :| 0 <= m < |counts[1..]| && counts[1..][m].0 == rest[i].0;
          assert counts[m + 1].0 == rest[i].0;
        }
      }
    } else if counts != [] {
      KeysIndex(counts);
      KeysIndex(Bump(counts, k));
    }
  }

  lemma {:induction false} KeysIndex<K>(counts: seq<(K, nat)>)
    ensures |Keys(counts)| == |counts|
    ensures forall i :: 0 <= i < |counts| ==> Keys(counts)[i] == counts[i].0
    decreases |counts|
  {
    if counts != [] {
      KeysIndex(counts[1..]);
    }
  }

  function ContextTally(rs: seq<ErrorReport>): seq<(string, nat)> {
    if rs == [] then [] else Bump(ContextTally(rs[..|rs| - 1]), ContextLabel(rs[|rs| - 1].context))
  }

  function DayTally(rs: seq<ErrorReport>): seq<(int, nat)> {
    if rs == [] then [] else Bump(DayTally(rs[..|rs| - 1]), Day(rs[|rs| - 1].timestamp))
  }

  /** The UTC day of a timestamp, as the date part of `toISOString()` names it. */
  function Day(timestamp: int): int {
    timestamp / MillisPerDay
  }

  function CountWithContext(rs: seq<ErrorReport>, name: string): nat {
    if rs == [] then 0
    else CountWithContext(rs[..|rs| - 1], name) + (if ContextLabel(rs[|rs| - 1].context) == name then 1 else 0)
  }

  function CountWithDay(rs: seq<ErrorReport>, day: int): nat {
    if rs == [] then 0
    else CountWithDay(rs[..|rs| - 1], day) + (if Day(rs[|rs| - 1].timestamp) == day then 1 else 0)
  }

  /** `getErrorSummary` for a buffer. */
  function SummaryOf(rs: seq<ErrorReport>): Summary {
    Summary(CountLevel(rs, Error), CountLevel(rs, Warning), ContextTally(rs), DayTally(rs))
  }

  /** The per-context counts are the number of reports under each name, each name once,
      and they add up to the number of reports; so do the per-day counts. */
  lemma {:induction false} SummaryCounts(rs: seq<ErrorReport>)
    ensures DistinctKeys(ContextTally(rs)) && DistinctKeys(DayTally(rs))
    ensures Total(ContextTally(rs)) == |rs| && Total(DayTally(rs)) == |rs|
    ensures forall name :: CountOf(ContextTally(rs), name) == CountWithContext(rs, name)
    ensures forall day :: CountOf(DayTally(rs), day) == CountWithDay(rs, day)
    decreases |rs|
  {
    if rs != [] {
      var init := rs[..|rs| - 1];
      SummaryCounts(init);
      BumpCounts(ContextTally(init), ContextLabel(rs[|rs| - 1].context));
      BumpCounts(DayTally(init), Day(rs[|rs| - 1].timestamp));
    }
  }

  /** The summary's totals: errors and warnings never exceed the reports, and every report is
      counted once by context and once by day. */
  lemma SummaryAddsUp(rs: seq<ErrorReport>)
    ensures var s := SummaryOf(rs);
      && s.totalErrors + s.totalWarnings <= |rs|
      && Total(s.errorsByContext) == |rs|
      && Total(s.errorsByDay) == |rs|
  {
    ErrorsAndWarningsBounded(rs);
    SummaryCounts(rs);
  }

  /** `clearOldReports`: the reports strictly newer than the cutoff, in order. */
  function KeepNewer(rs: seq<ErrorReport>, cutoff: int): (kept: seq<ErrorReport>)
    ensures |kept| <= |rs|
    ensures forall r :: r in kept <==> r in rs && r.timestamp > cutoff
  {
    if rs == [] then []
    else if rs[0].timestamp > cutoff then [rs[0]] + KeepNewer(rs[1..], cutoff)
    else KeepNewer(rs[1..], cutoff)
  }

  /** The filter works report by report, so the survivors keep their order in the buffer. */
  lemma {:induction false} KeepNewerConcat(xs: seq<ErrorReport>, ys: seq<ErrorReport>, cutoff: int)
    ensures KeepNewer(xs + ys, cutoff) == KeepNewer(xs, cutoff) + KeepNewer(ys, cutoff)
    decreases |xs|
  {
    if xs == [] {
      assert xs + ys == ys;
    } else {
      var zs := xs + ys;
      assert zs[0] == xs[0] && zs[1..] == xs[1..] + ys;
      KeepNewerConcat(xs[1..], ys, cutoff);
      var tail := KeepNewer(xs[1..], cutoff) + KeepNewer(ys, cutoff);
      if xs[0].timestamp > cutoff {
        assert KeepNewer(zs, cutoff) == [xs[0]] + tail;
        assert KeepNewer(xs, cutoff) == [xs[0]] + KeepNewer(xs[1..], cutoff);
      } else {
        assert KeepNewer(zs, cutoff) == tail;
      }
    }
  }

  // ---------------------------------------------------------------------------
  // The service

  class ErrorMonitor {
    var errorReports: seq<ErrorReport>
    /** The alert configs in insertion order, as a `Map` iterates them. */
    var alertConfigs: seq<(string, AlertConfig)>
    var errorCounts: map<string, CountInfo>
    /** The alerts fired so far, in order. */
    var alerts: seq<Alert>

    predicate Valid()
      reads this
    {
      |errorReports| <= MaxReports && DistinctNames(alertConfigs)
    }

    constructor()
      ensures Valid()
      ensures errorReports == [] && alertConfigs == [] && errorCounts == map[] && alerts == []
    {
      errorReports := [];
      alertConfigs := [];
      errorCounts := map[];
      alerts := [];
    }

    /** `reportError`: store the report, trim, count it under its key, then check the alerts. */
    method ReportError(error: Thrown, context: Option<string>, userId: Option<string>, metadata: Option<Record>,
                       id: string, now: int)
      returns (report: ErrorReport)
      requires Valid()
      modifies this
      ensures Valid()
      ensures report == ErrorReport(id, now, Error, ReportMessage(error), error.stack, context, userId, metadata, false)
      ensures errorReports == Trim(old(errorReports) + [report])
      ensures alertConfigs == old(alertConfigs)
      ensures var key := ErrorKey(report);
        var counted := Tick(old(errorCounts), key, now);
        var fired := FiredAlerts(alertConfigs, report, counted[key].count);
        && alerts == old(alerts) + fired
        && errorCounts == if fired == [] then counted else counted[key := CountInfo(0, now)]
    {
      report := ErrorReport(id, now, Error, ReportMessage(error), error.stack, context, userId, metadata, false);
      errorReports := errorReports + [report];
      if |errorReports| > MaxReports {
        errorReports := errorReports[|errorReports| - MaxReports..];
      }
      assert errorReports == Trim(old(errorReports) + [report]);
      var key := ErrorKey(report);
      if key in errorCounts && now - errorCounts[key].timestamp < CountWindow {
        errorCounts := errorCounts[key := CountInfo(errorCounts[key].count + 1, now)];
      } else {
        errorCounts := errorCounts[key := CountInfo(1, now)];
      }
      assert errorCounts == Tick(old(errorCounts), key, now);
      CheckAlerts(report, now);
    }

    /** `reportWarning`: store and trim; the counters and alerts are untouched. */
    method ReportWarning(message: string, context: Option<string>, userId: Option<string>, metadata: Option<Record>,
                         id: string, now: int)
      returns (report: ErrorReport)
      requires Valid()
      modifies this
      ensures Valid()
      ensures report == ErrorReport(id, now, Warning, message, None, context, userId, metadata, false)
      ensures errorReports == Trim(old(errorReports) + [report])
      ensures alertConfigs == old(alertConfigs) && errorCounts == old(errorCounts) && alerts == old(alerts)
    {
      report := ErrorReport(id, now, Warning, message, None, context, userId, metadata, false);
      errorReports := errorReports + [report];
      if |errorReports| > MaxReports {
        errorReports := errorReports[|errorReports| - MaxReports..];
      }
    }

    /** `setErrorAlert`. */
    method SetErrorAlert(name: string, config: AlertConfig)
      requires Valid()
      modifies this
      ensures Valid()
      ensures alertConfigs == SetEntry(old(alertConfigs), name, config)
      ensures errorReports == old(errorReports) && errorCounts == old(errorCounts) && alerts == old(alerts)
    {
      SetEntryKeepsNamesDistinct(alertConfigs, name, config);
      alertConfigs := SetEntry(alertConfigs, name, config);
    }

    /** `checkAlerts`: read the key's count once, fire every config whose threshold it meets,
        and after each firing reset the counter to 0. */
    method CheckAlerts(report: ErrorReport, now: int)
      modifies this
      ensures errorReports == old(errorReports) && alertConfigs == old(alertConfigs)
      ensures var key := ErrorKey(report);
        if key !in old(errorCounts) then errorCounts == old(errorCounts) && alerts == old(alerts)
        else
          var fired := FiredAlerts(alertConfigs, report, old(errorCounts)[key].count);
          && alerts == old(alerts) + fired
          && errorCounts == if fired == [] then old(errorCounts) else old(errorCounts)[key := CountInfo(0, now)]
    {
      var key := ErrorKey(report);
      if key !in errorCounts {
        return;
      }
      var count := errorCounts[key].count;
      var i := 0;
      while i < |alertConfigs|
        invariant 0 <= i <= |alertConfigs|
        invariant errorReports == old(errorReports) && alertConfigs == old(alertConfigs)
        invariant alerts == old(alerts) + FiredAlerts(alertConfigs[..i], report, count)
        invariant errorCounts == if FiredAlerts(alertConfigs[..i], report, count) == [] then old(errorCounts)
                                 else old(errorCounts)[key := CountInfo(0, now)]
      {
        assert alertConfigs[..i + 1][..i] == alertConfigs[..i];
        var name, config := alertConfigs[i].0, alertConfigs[i].1;
        if count >= config.threshold {
          alerts := alerts + [Alert(name, report, count)];
          errorCounts := errorCounts[key := CountInfo(0, now)];
        }
        i := i + 1;
      }
      assert alertConfigs[..i] == alertConfigs;
    }

    /** `getRecentErrors(limit)`. */
    method GetRecentErrors(limit: int) returns (recent: seq<ErrorReport>)
      ensures recent == RecentErrors(errorReports, limit)
    {
      recent := RecentErrors(errorReports, limit);
    }

    /** `getErrorSummary`: the two level counts, then one pass tallying contexts and days. */
    method GetErrorSummary() returns (summary: Summary)
      ensures summary == SummaryOf(errorReports)
    {
      var byContext: seq<(string, nat)> := [];
      var byDay: seq<(int, nat)> := [];
      var i := 0;
      while i < |errorReports|
        invariant 0 <= i <= |errorReports|
        invariant byContext == ContextTally(errorReports[..i])
        invariant byDay == DayTally(errorReports[..i])
      {
        assert errorReports[..i + 1][..i] == errorReports[..i];
        var report := errorReports[i];
        byContext := Bump(byContext, ContextLabel(report.context));
        byDay := Bump(byDay, Day(report.timestamp));
        i := i + 1;
      }
      assert errorReports[..i] == errorReports;
      summary := Summary(CountLevel(errorReports, Error), CountLevel(errorReports, Warning), byContext, byDay);
    }

    /** `clearOldReports(maxAgeHours)`: keep the reports newer than now minus the age. */
    method ClearOldReports(maxAgeHours: int, now: int)
      requires Valid()
      modifies this
      ensures Valid()
      ensures errorReports == KeepNewer(old(errorReports), now - maxAgeHours * MillisPerHour)
      ensures alertConfigs == old(alertConfigs) && errorCounts == old(errorCounts) && alerts == old(alerts)
    {
      errorReports := KeepNewer(errorReports, now - maxAgeHours * MillisPerHour);
    }
  }
}
