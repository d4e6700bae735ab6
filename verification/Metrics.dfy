// agent_bench/runner/metrics.py: mean time to recovery and percentiles over stored runs.
module Metrics {
  import opened Values
  import opened Order

  // What the recovery scan reads of a run: its (agent, task, seed) group, its start in
  // microseconds since the least datetime if it parses, and whether it succeeded.
  datatype Key = Key(agent: Json, task: Json, seed: Json)

  datatype Row = Row(key: Key, ts: Option<nat>, success: bool)

  function RowOf(run: Json, parse: Json -> Option<nat>): Row
  {
    Row(Key(run.GetOr("agent", Str("")), run.GetOr("task_ref", Str("")), run.GetOr("seed", Int(0))),
        parse(run.Get("started_at")), run.Get("success").Truthy())
  }

  function RowsOf(runs: seq<Json>, parse: Json -> Option<nat>): (rows: seq<Row>)
    ensures |rows| == |runs|
    ensures forall i | 0 <= i < |runs| :: rows[i] == RowOf(runs[i], parse)
  {
    seq(|runs|, i requires 0 <= i < |runs| => RowOf(runs[i], parse))
  }

  // _parse_ts(...) or datetime.min
  function SortTime(r: Row): nat
  {
    if r.ts.Some? then r.ts.value else 0
  }

  predicate TimeLe(a: Row, b: Row)
  {
    SortTime(a) <= SortTime(b)
  }

  // ---- one group ---------------------------------------------------------------------------

  datatype Scan = Scan(failure: Option<nat>, recoveries: seq<nat>, incidents: nat)

  // One turn of the scan over a group.
  function Step(s: Scan, r: Row): Scan
  {
    if r.ts.None? then s
    else if !r.success then
      if s.failure.None? then Scan(r.ts, s.recoveries, s.incidents + 1) else s
    else if s.failure.Some? then
      Scan(None,
           if r.ts.value - s.failure.value >= 0 then s.recoveries + [r.ts.value - s.failure.value] else s.recoveries,
           s.incidents)
    else s
  }

  function ScanAll(rows: seq<Row>): Scan
  {
    if rows == [] then Scan(None, [], 0) else Step(ScanAll(rows[..|rows| - 1]), rows[|rows| - 1])
  }

  // The last run with a time stamp.
  function LastTimed(rows: seq<Row>): (last: Option<Row>)
    ensures last.Some? ==> last.value.ts.Some? && last.value in rows
    ensures last.None? ==> forall r <- rows :: r.ts.None?
  {
    if rows == [] then None
    else if rows[|rows| - 1].ts.Some? then Some(rows[|rows| - 1])
    else LastTimed(rows[..|rows| - 1])
  }

  function Sum(times: seq<nat>): nat
  {
    if times == [] then 0 else Sum(times[..|times| - 1]) + times[|times| - 1]
  }

  lemma SumAppend(times: seq<nat>, t: nat)
    ensures Sum(times + [t]) == Sum(times) + t
  {
    assert (times + [t])[..|times|] == times;
  }

  // A group in time order: one failure is open exactly when the last timestamped run
  // failed, every closed one was recorded, and the recoveries fit into the time from lo on.
  lemma {:induction false} ScanBalances(rows: seq<Row>, lo: nat)
    requires SortedBy(TimeLe, rows)
    requires forall r <- rows :: r.ts.Some? ==> lo <= r.ts.value
    ensures var s := ScanAll(rows);
            && s.incidents == |s.recoveries| + (if s.failure.Some? then 1 else 0)
            && (s.failure.Some? <==> LastTimed(rows).Some? && !LastTimed(rows).value.success)
            && (s.failure.Some? ==> lo + Sum(s.recoveries) <= s.failure.value && exists r <- rows :: r.ts == s.failure)
            && (s.failure.None? && s.recoveries != [] ==> LastTimed(rows).Some? && lo + Sum(s.recoveries) <= LastTimed(rows).value.ts.value)
  {
    if rows != [] {
      var n := |rows| - 1;
      var before, r := ScanAll(rows[..n]), rows[n];
      ScanBalances(rows[..n], lo);
      assert rows[n] in rows;
      if r.ts.Some? {
        forall i | 0 <= i < n ensures SortTime(rows[i]) <= r.ts.value { assert TimeLe(rows[i], rows[n]); }
        if before.failure.Some? && r.success {
          var begun :| begun in rows[..n] && begun.ts == before.failure;
          SumAppend(before.recoveries, r.ts.value - before.failure.value);
        } else if before.failure.None? && before.recoveries != [] {
          assert LastTimed(rows[..n]).value in rows[..n];
        }
      }
    }
  }

  // Where the incidents of a group begin and end.
  ghost predicate Begins(rows: seq<Row>, i: nat)
    requires i < |rows|
  {
    rows[i].ts.Some? && !rows[i].success && (LastTimed(rows[..i]).None? || LastTimed(rows[..i]).value.success)
  }

  ghost predicate Ends(rows: seq<Row>, i: nat)
    requires i < |rows|
  {
    rows[i].ts.Some? && rows[i].success && LastTimed(rows[..i]).Some? && !LastTimed(rows[..i]).value.success
  }

  ghost function BeginCount(rows: seq<Row>, n: nat): nat
    requires n <= |rows|
  {
    if n == 0 then 0 else BeginCount(rows, n - 1) + (if Begins(rows, n - 1) then 1 else 0)
  }

  ghost function EndCount(rows: seq<Row>, n: nat): nat
    requires n <= |rows|
  {
    if n == 0 then 0 else EndCount(rows, n - 1) + (if Ends(rows, n - 1) then 1 else 0)
  }

  // Incidents are the failures that follow no failure, recoveries the successes that follow
  // one; none is lost to the guard on negative times.
  lemma {:induction false} ScanCounts(rows: seq<Row>, n: nat)
    requires SortedBy(TimeLe, rows) && n <= |rows|
    ensures var s := ScanAll(rows[..n]); s.incidents == BeginCount(rows, n) && |s.recoveries| == EndCount(rows, n)
  {
    if n > 0 {
      ScanCounts(rows, n - 1);
      assert rows[..n][..n - 1] == rows[..n - 1];
      OpenSince(rows, n - 1);
      hide LastTimed, TimeLe;
    }
  }

  // An open failure is not later than the next run.
  lemma OpenSince(rows: seq<Row>, i: nat)
    requires SortedBy(TimeLe, rows) && i < |rows|
    ensures var s := ScanAll(rows[..i]);
            && (s.failure.Some? <==> LastTimed(rows[..i]).Some? && !LastTimed(rows[..i]).value.success)
            && (s.failure.Some? && rows[i].ts.Some? ==> s.failure.value <= rows[i].ts.value)
  {
    var before := rows[..i];
    assert SortedBy(TimeLe, before) by {
      forall j, k | 0 <= j < k < i ensures TimeLe(before[j], before[k]) { assert TimeLe(rows[j], rows[k]); }
    }
    ScanBalances(before, 0);
    if ScanAll(before).failure.Some? {
      var first :| first in before && first.ts == ScanAll(before).failure;
      var k :| 0 <= k < i && rows[k] == first;
      assert TimeLe(rows[k], rows[i]);
    }
  }

  // The incident that is open at i began at b.
  ghost predicate OpenedBy(rows: seq<Row>, b: nat, i: nat)
    requires i <= |rows|
  {
    b < i && Begins(rows, b) && forall j | b < j < i :: !Begins(rows, j) && !Ends(rows, j)
  }

  // The last position before i where an incident began.
  ghost function Opening(rows: seq<Row>, i: nat): (b: nat)
    requires i <= |rows|
    ensures b == i || (b < i && Begins(rows, b) && forall j | b < j < i :: !Begins(rows, j))
    ensures b == i ==> forall j | 0 <= j < i :: !Begins(rows, j)
  {
    if i == 0 then 0
    else if Begins(rows, i - 1) then i - 1
    else if Opening(rows, i - 1) == i - 1 then i else Opening(rows, i - 1)
  }

  // The recovery times of the first n runs: for each position where an incident ends, the time
  // since the failure that opened it.
  ghost function RecoveryTimes(rows: seq<Row>, n: nat): seq<int>
    requires n <= |rows|
  {
    if n == 0 then []
    else
      var i, b := n - 1, Opening(rows, n - 1);
      RecoveryTimes(rows, n - 1)
      + (if Ends(rows, i) then [rows[i].ts.value - rows[b].ts.value] else [])
  }

  // An open failure has the time of the run that opened the incident, however many failures
  // followed it.
  lemma {:induction false} OpenFailure(rows: seq<Row>, n: nat)
    requires SortedBy(TimeLe, rows) && n <= |rows|
    ensures var s := ScanAll(rows[..n]);
            s.failure.Some? ==> OpenedBy(rows, Opening(rows, n), n) && rows[Opening(rows, n)].ts == s.failure
  {
    if n > 0 {
      OpenFailure(rows, n - 1);
      assert rows[..n][..n - 1] == rows[..n - 1];
      OpenSince(rows, n - 1);
      hide LastTimed, TimeLe;
    }
  }

  // An incident ends where a run succeeds while a failure is open.
  lemma EndsWhenOpen(rows: seq<Row>, i: nat)
    requires SortedBy(TimeLe, rows) && i < |rows|
    ensures var s := ScanAll(rows[..i]);
            && (Ends(rows, i) <==> rows[i].ts.Some? && rows[i].success && s.failure.Some?)
            && (Ends(rows, i) ==> OpenedBy(rows, Opening(rows, i), i) && rows[Opening(rows, i)].ts == s.failure)
            && (Ends(rows, i) ==> s.failure.value <= rows[i].ts.value)
  {
    hide LastTimed, TimeLe, ScanAll, Opening, OpenedBy;
    OpenSince(rows, i);
    OpenFailure(rows, i);
  }

  // The recoveries of a scan are those times, none lost and none made up.
  lemma {:induction false} ScanTimes(rows: seq<Row>, n: nat)
    requires SortedBy(TimeLe, rows) && n <= |rows|
    ensures ScanAll(rows[..n]).recoveries == RecoveryTimes(rows, n)
  {
    if n > 0 {
      ScanTimes(rows, n - 1);
      assert rows[..n][..n - 1] == rows[..n - 1];
      EndsWhenOpen(rows, n - 1);
      hide LastTimed, TimeLe, Ends, Begins, Opening, OpenedBy;
    }
  }

  // Each incident that ends has its own entry among them: behind the entries of those that
  // ended before it, the time from the failure that opened it.
  lemma {:induction false} RecoveryAt(rows: seq<Row>, n: nat, i: nat)
    requires SortedBy(TimeLe, rows) && i < n <= |rows| && Ends(rows, i)
    ensures var times := ScanAll(rows[..n]).recoveries;
            EndCount(rows, i) < |times| && exists b: nat :: OpenedBy(rows, b, i) && times[EndCount(rows, i)] == rows[i].ts.value - rows[b].ts.value
  {
    hide LastTimed, TimeLe, ScanAll, Begins, Opening, OpenedBy;
    ScanTimes(rows, n);
    EndsWhenOpen(rows, i);
    TimesAt(rows, n, i);
  }

  lemma {:induction false} TimesAt(rows: seq<Row>, n: nat, i: nat)
    requires i < n <= |rows| && Ends(rows, i)
    ensures |RecoveryTimes(rows, i)| == EndCount(rows, i) < |RecoveryTimes(rows, n)|
    ensures RecoveryTimes(rows, n)[EndCount(rows, i)] == rows[i].ts.value - rows[Opening(rows, i)].ts.value
  {
    hide LastTimed, Opening;
    TimesCount(rows, i);
    if i < n - 1 { TimesAt(rows, n - 1, i); }
  }

  lemma {:induction false} TimesCount(rows: seq<Row>, n: nat)
    requires n <= |rows|
    ensures |RecoveryTimes(rows, n)| == EndCount(rows, n)
  {
    hide Ends, Opening;
    if n > 0 { TimesCount(rows, n - 1); }
  }

  // ---- time order ---------------------------------------------------------------------------

  lemma TimeLeIsPreorder()
    ensures Preorder(TimeLe)
  {
  }

  // The run with the greatest time stamp, the last one listed among equals.
  function Latest(rows: seq<Row>): (latest: Option<Row>)
    ensures latest.Some? ==> latest.value.ts.Some? && latest.value in rows
    ensures latest.None? ==> forall r <- rows :: r.ts.None?
    ensures latest.Some? ==> forall r <- rows :: r.ts.Some? ==> r.ts.value <= latest.value.ts.value
  {
    if rows == [] then None
    else
      var r, before := rows[|rows| - 1], Latest(rows[..|rows| - 1]);
      assert forall q <- rows :: q == r || q in rows[..|rows| - 1];
      if r.ts.Some? && (before.None? || before.value.ts.value <= r.ts.value) then Some(r) else before
  }

  lemma {:induction false} LastAfterInsert(s: seq<Row>, x: Row)
    requires SortedBy(TimeLe, s)
    ensures LastTimed(InsertAfter(TimeLe, s, x)) ==
              if x.ts.Some? && (LastTimed(s).None? || LastTimed(s).value.ts.value <= x.ts.value) then Some(x) else LastTimed(s)
  {
    if s != [] {
      var n := |s| - 1;
      if TimeLe(s[n], x) {
        assert (s + [x])[..|s|] == s;
        forall r | r in s ensures SortTime(r) <= SortTime(x) {
          var i :| 0 <= i < |s| && s[i] == r;
          assert i == n || TimeLe(s[i], s[n]);
        }
      } else {
        var r := InsertAfter(TimeLe, s[..n], x);
        assert (r + [s[n]])[..|r|] == r;
      }
    }
  }

  // Sorting a group brings its latest run to the end.
  lemma {:induction false} LatestIsLast(rows: seq<Row>)
    ensures LastTimed(Sort(TimeLe, rows)) == Latest(rows)
  {
    if rows != [] {
      var n := |rows| - 1;
      LatestIsLast(rows[..n]);
      TimeLeIsPreorder();
      SortSorts(TimeLe, rows[..n]);
      LastAfterInsert(Sort(TimeLe, rows[..n]), rows[n]);
    }
  }

  // ---- groups -----------------------------------------------------------------------------------

  function Group(rows: seq<Row>, key: Key): (group: seq<Row>)
    ensures forall r :: r in group <==> r in rows && r.key == key
  {
    if rows == [] then []
    else
      assert forall r :: r in rows <==> r in rows[..|rows| - 1] || r == rows[|rows| - 1];
      Group(rows[..|rows| - 1], key) + (if rows[|rows| - 1].key == key then [rows[|rows| - 1]] else [])
  }

  function GroupScan(rows: seq<Row>, key: Key): Scan
  {
    ScanAll(Sort(TimeLe, Group(rows, key)))
  }

  function KeysOf(rows: seq<Row>): set<Key>
  {
    set r | r in rows :: r.key
  }

  // The groups whose latest run failed: incidents that nothing has recovered.
  function Broken(rows: seq<Row>, keys: set<Key>): set<Key>
  {
    set k | k in keys && Latest(Group(rows, k)).Some? && !Latest(Group(rows, k)).value.success
  }

  datatype Mttr = Mttr(recoveries: seq<nat>, incidents: nat, mean: Option<real>)

  // Sums over a list of distinct groups.
  ghost function Incidents(rows: seq<Row>, order: seq<Key>): nat
  {
    if order == [] then 0 else Incidents(rows, order[..|order| - 1]) + GroupScan(rows, order[|order| - 1]).incidents
  }

  ghost function Recoveries(rows: seq<Row>, order: seq<Key>): seq<nat>
  {
    if order == [] then [] else Recoveries(rows, order[..|order| - 1]) + GroupScan(rows, order[|order| - 1]).recoveries
  }

  // The times of all incidents that ended, group by group.
  ghost function AllRecoveryTimes(rows: seq<Row>, order: seq<Key>): seq<int>
  {
    if order == [] then []
    else
      var sorted := Sort(TimeLe, Group(rows, order[|order| - 1]));
      AllRecoveryTimes(rows, order[..|order| - 1]) + RecoveryTimes(sorted, |sorted|)
  }

  // The groups in the order their first run is listed.
  function FirstSeen(rows: seq<Row>): (order: seq<Key>)
    ensures forall k :: k in order <==> k in KeysOf(rows)
  {
    if rows == [] then []
    else
      var before, k := FirstSeen(rows[..|rows| - 1]), rows[|rows| - 1].key;
      assert forall r :: r in rows <==> r in rows[..|rows| - 1] || r == rows[|rows| - 1];
      if k in before then before else before + [k]
  }

  lemma {:induction false} FirstSeenDistinct(rows: seq<Row>)
    ensures Distinct(FirstSeen(rows))
  {
    if rows != [] { FirstSeenDistinct(rows[..|rows| - 1]); }
  }

  // The inner loop: scan one group in time order.
  method ScanGroup(rows: seq<Row>) returns (s: Scan)
    ensures s == ScanAll(Sort(TimeLe, rows))
    ensures var sorted := Sort(TimeLe, rows);
            s.recoveries == RecoveryTimes(sorted, |sorted|) && s.incidents == BeginCount(sorted, |sorted|)
  {
    var sorted := Sort(TimeLe, rows);
    var failure: Option<nat> := None;
    var recoveries: seq<nat> := [];
    var incidents := 0;
    for i := 0 to |sorted|
      invariant Scan(failure, recoveries, incidents) == ScanAll(sorted[..i])
    {
      assert sorted[..i + 1][..i] == sorted[..i];
      var r := sorted[i];
      if r.ts.None? {
        continue;
      }
      if !r.success {
        if failure.None? {
          failure, incidents := r.ts, incidents + 1;
        }
      } else if failure.Some? {
        if r.ts.value - failure.value >= 0 {
          recoveries := recoveries + [r.ts.value - failure.value];
        }
        failure := None;
      }
    }
    assert sorted[..|sorted|] == sorted;
    s := Scan(failure, recoveries, incidents);
    TimeLeIsPreorder();
    SortSorts(TimeLe, rows);
    ScanTimes(sorted, |sorted|);
    ScanCounts(sorted, |sorted|);
  }

  // The grouping loop; the keys keep the order in which the dictionary got them.
  method GroupRuns(rows: seq<Row>) returns (grouped: map<Key, seq<Row>>, order: seq<Key>)
    ensures order == FirstSeen(rows) && grouped.Keys == KeysOf(rows)
    ensures forall k <- grouped :: grouped[k] == Group(rows, k)
  {
    hide KeysOf, Group, FirstSeen;
    grouped, order := map[], [];
    NothingSeen();
    for i := 0 to |rows|
      invariant order == FirstSeen(rows[..i]) && grouped.Keys == KeysOf(rows[..i])
      invariant forall k <- grouped :: grouped[k] == Group(rows[..i], k)
    {
      var k := rows[i].key;
      NextRow(rows, i);
      ghost var before := grouped;
      if k !in grouped {
        NewKey(rows[..i], k);
        order := order + [k];
        grouped := grouped[k := []];
      }
      grouped := grouped[k := grouped[k] + [rows[i]]];
      forall q | q in grouped ensures grouped[q] == Group(rows[..i + 1], q) {
        if q != k { assert q in before && grouped[q] == before[q]; }
      }
    }
    assert rows[..|rows|] == rows;
  }

  lemma NothingSeen()
    ensures KeysOf([]) == {} && FirstSeen([]) == []
  {
  }

  // What one more run changes in the groups.
  lemma NextRow(rows: seq<Row>, i: nat)
    requires i < |rows|
    ensures var k := rows[i].key;
            && KeysOf(rows[..i + 1]) == KeysOf(rows[..i]) + {k}
            && FirstSeen(rows[..i + 1]) == FirstSeen(rows[..i]) + (if k in KeysOf(rows[..i]) then [] else [k])
            && forall q :: Group(rows[..i + 1], q) == Group(rows[..i], q) + (if q == k then [rows[i]] else [])
  {
    assert rows[..i + 1] == rows[..i] + [rows[i]];
    assert rows[..i + 1][..i] == rows[..i];
  }

  lemma NewKey(rows: seq<Row>, k: Key)
    requires k !in KeysOf(rows)
    ensures Group(rows, k) == []
  {
    if Group(rows, k) != [] { assert Group(rows, k)[0] in Group(rows, k); }
  }

  // The runs that are taken: the first limit ones, and one where the limit is not positive.
  function Taken(runs: seq<Json>, limit: int): seq<Json>
  {
    var n := if limit < 1 then 1 else limit;
    if |runs| <= n then runs else runs[..n]
  }

  method TakeRuns(runs: seq<Json>, limit: int) returns (taken: seq<Json>)
    ensures taken == Taken(runs, limit)
  {
    taken := [];
    for i := 0 to |runs|
      invariant taken == runs[..i] && (i == 0 || i < limit)
    {
      taken := taken + [runs[i]];
      if |taken| >= limit {
        return;
      }
    }
  }

  // The first runs are taken, at least one and at most limit of them; two runs are grouped
  // together exactly when agent, task and seed are the same.
  lemma TakenRuns(runs: seq<Json>, limit: int, parse: Json -> Option<nat>, i: nat, j: nat)
    requires i < |Taken(runs, limit)| && j < |Taken(runs, limit)|
    ensures var rows := RowsOf(Taken(runs, limit), parse);
            && |rows| == (if limit >= |runs| then |runs| else if limit < 1 then 1 else limit)
            && (rows[i].key == rows[j].key <==>
                  && runs[i].GetOr("agent", Str("")) == runs[j].GetOr("agent", Str(""))
                  && runs[i].GetOr("task_ref", Str("")) == runs[j].GetOr("task_ref", Str(""))
                  && runs[i].GetOr("seed", Int(0)) == runs[j].GetOr("seed", Int(0)))
            && rows[i].ts == parse(runs[i].Get("started_at"))
            && rows[i].success == runs[i].Get("success").Truthy()
  {
  }

  // round(x, 1): the nearest tenth, and between two of them the even one.
  function RoundTenth(x: real): real
  {
    var n := (10.0 * x).Floor;
    var rest := 10.0 * x - n as real;
    (if rest < 0.5 || (rest == 0.5 && n % 2 == 0) then n else n + 1) as real / 10.0
  }

  lemma RoundsToNearest(x: real, tenths: int)
    ensures -0.05 <= RoundTenth(x) - x <= 0.05
    ensures x == tenths as real / 10.0 ==> RoundTenth(x) == x
  {
    if x == tenths as real / 10.0 {
      assert 10.0 * x == tenths as real;
      assert (10.0 * x).Floor == tenths;
    }
  }

  // statistics.mean of times in microseconds, in seconds.
  function MeanSeconds(times: seq<nat>): real
    requires times != []
  {
    Sum(times) as real / |times| as real / 1000000.0
  }

  // compute_mttr on the runs that iter_runs yields.
  method ComputeMttr(runs: seq<Json>, limit: int, parse: Json -> Option<nat>) returns (m: Mttr)
    ensures var rows := RowsOf(Taken(runs, limit), parse);
            && m.incidents == Incidents(rows, FirstSeen(rows))
            && m.recoveries == Recoveries(rows, FirstSeen(rows)) == AllRecoveryTimes(rows, FirstSeen(rows))
    ensures m.mean == if m.recoveries == [] then None else Some(RoundTenth(MeanSeconds(m.recoveries)))
  {
    hide Group, Sort, ScanAll, KeysOf, Sum, RowsOf, FirstSeen, Taken, RoundTenth, RecoveryTimes, BeginCount;
    var taken := TakeRuns(runs, limit);
    var rows := RowsOf(taken, parse);
    var grouped, order := GroupRuns(rows);
    var recoveries: seq<nat> := [];
    var incidents := 0;
    for i := 0 to |order|
      invariant incidents == Incidents(rows, order[..i])
      invariant recoveries == Recoveries(rows, order[..i]) == AllRecoveryTimes(rows, order[..i])
    {
      assert order[..i + 1][..i] == order[..i];
      assert order[i] in order;
      var s := ScanGroup(grouped[order[i]]);
      recoveries, incidents := recoveries + s.recoveries, incidents + s.incidents;
    }
    assert order[..|order|] == order;
    var total := Total(recoveries);
    m := Mttr(recoveries, incidents, if recoveries == [] then None else Some(RoundTenth(total as real / |recoveries| as real / 1000000.0)));
  }

  method Total(times: seq<nat>) returns (total: nat)
    ensures total == Sum(times)
  {
    total := 0;
    for i := 0 to |times|
      invariant total == Sum(times[..i])
    {
      assert times[..i + 1][..i] == times[..i];
      total := total + times[i];
    }
    assert times[..|times|] == times;
  }

  // ---- conservation over all groups ------------------------------------------------------------------

  lemma GroupBalances(rows: seq<Row>, key: Key, lo: nat, hi: nat)
    requires forall r <- Group(rows, key) :: r.ts.Some? ==> lo <= r.ts.value <= hi
    ensures var s := GroupScan(rows, key);
            && s.incidents == |s.recoveries| + (if key in Broken(rows, {key}) then 1 else 0)
            && (s.recoveries != [] ==> Sum(s.recoveries) <= hi - lo)
  {
    var group := Group(rows, key);
    TimeLeIsPreorder();
    SortSorts(TimeLe, group);
    SortMembers(TimeLe, group);
    LatestIsLast(group);
    ScanBalances(Sort(TimeLe, group), lo);
  }

  lemma {:induction false} AllBalance(rows: seq<Row>, order: seq<Key>)
    requires Distinct(order)
    ensures Incidents(rows, order) == |Recoveries(rows, order)| + |Broken(rows, Elements(order))|
  {
    hide Broken, GroupScan, Group;
    if order == [] {
      assert Broken(rows, Elements(order)) == {} by { NothingBroken(rows); assert Elements(order) == {}; }
    } else {
      var n := |order| - 1;
      AllBalance(rows, order[..n]);
      Bounds(Group(rows, order[n]));
      GroupBalances(rows, order[n], 0, Highest(Group(rows, order[n])));
      assert order == order[..n] + [order[n]];
      assert Elements(order) == Elements(order[..n]) + {order[n]};
      BrokenGrows(rows, Elements(order[..n]), order[n]);
    }
  }

  lemma NothingBroken(rows: seq<Row>)
    ensures Broken(rows, {}) == {}
  {
  }

  lemma BrokenGrows(rows: seq<Row>, keys: set<Key>, k: Key)
    requires k !in keys
    ensures |Broken(rows, keys + {k})| == |Broken(rows, keys)| + (if k in Broken(rows, {k}) then 1 else 0)
  {
    hide Group, Latest;
    if k in Broken(rows, {k}) {
      assert Broken(rows, keys + {k}) == Broken(rows, keys) + {k};
    } else {
      assert Broken(rows, keys + {k}) == Broken(rows, keys);
    }
  }

  function Highest(rows: seq<Row>): nat
  {
    if Latest(rows).Some? then Latest(rows).value.ts.value else 0
  }

  lemma Bounds(rows: seq<Row>)
    ensures forall r <- rows :: r.ts.Some? ==> 0 <= r.ts.value <= Highest(rows)
  {
  }

  // Over any stored runs: the incidents without a recovery are exactly the groups whose
  // latest timestamped run failed.
  lemma MttrConserves(rows: seq<Row>)
    ensures Incidents(rows, FirstSeen(rows)) - |Recoveries(rows, FirstSeen(rows))| == |Broken(rows, KeysOf(rows))|
  {
    FirstSeenDistinct(rows);
    AllBalance(rows, FirstSeen(rows));
    assert Elements(FirstSeen(rows)) == KeysOf(rows);
  }

  // ---- percentiles ------------------------------------------------------------------------------------

  predicate IntLe(a: int, b: int)
  {
    a <= b
  }

  function RankBelow(n: nat, pct: nat): nat
  {
    n * pct / 100
  }

  // _pct; percentages are not negative.
  function Pct(values: seq<int>, pct: nat): Option<int>
  {
    if values == [] then None
    else
      var sv, rank := Sort(IntLe, values), RankBelow(|values|, pct);
      Some(sv[if rank < |sv| - 1 then rank else |sv| - 1])
  }

  function CountBelow(values: seq<int>, x: int): nat
  {
    if values == [] then 0 else CountBelow(values[..|values| - 1], x) + (if values[|values| - 1] < x then 1 else 0)
  }

  lemma {:induction false} CountAfterInsert(s: seq<int>, v: int, x: int)
    ensures CountBelow(InsertAfter(IntLe, s, v), x) == CountBelow(s, x) + (if v < x then 1 else 0)
  {
    if s == [] {
      assert [v][..0] == [];
    } else {
      var n := |s| - 1;
      if IntLe(s[n], v) {
        assert (s + [v])[..|s|] == s;
      } else {
        CountAfterInsert(s[..n], v, x);
        var r := InsertAfter(IntLe, s[..n], v);
        assert (r + [s[n]])[..|r|] == r;
      }
    }
  }

  lemma {:induction false} CountAfterSort(s: seq<int>, x: int)
    ensures CountBelow(Sort(IntLe, s), x) == CountBelow(s, x)
  {
    if s != [] {
      CountAfterSort(s[..|s| - 1], x);
      CountAfterInsert(Sort(IntLe, s[..|s| - 1]), s[|s| - 1], x);
    }
  }

  // In a sorted list, fewer than or exactly idx values lie below the one at idx, and more
  // than idx lie below any greater one.
  lemma {:induction false} CountSorted(s: seq<int>, x: int, idx: nat)
    requires idx <= |s|
    ensures (forall i | idx <= i < |s| :: s[i] >= x) ==> CountBelow(s, x) <= idx
    ensures (forall i | 0 <= i < idx :: s[i] < x) ==> CountBelow(s, x) >= idx
  {
    if s != [] {
      var n := |s| - 1;
      if idx <= n {
        CountSorted(s[..n], x, idx);
      } else {
        CountSorted(s[..n], x, n);
      }
    }
  }

  lemma RankOf(values: seq<int>, idx: nat)
    requires idx < |values|
    ensures var r := Sort(IntLe, values)[idx];
            r in values && CountBelow(values, r) <= idx && CountBelow(values, r + 1) >= idx + 1
  {
    hide Sort, CountBelow;
    var sv := Sort(IntLe, values);
    SortSorts(IntLe, values);
    SortMembers(IntLe, values);
    assert sv[idx] in sv;
    forall i | idx <= i < |sv| ensures sv[i] >= sv[idx] { assert i == idx || IntLe(sv[idx], sv[i]); }
    forall i | 0 <= i < idx + 1 ensures sv[i] < sv[idx] + 1 { assert i == idx || IntLe(sv[i], sv[idx]); }
    CountSorted(sv, sv[idx], idx);
    CountSorted(sv, sv[idx] + 1, idx + 1);
    CountAfterSort(values, sv[idx]);
    CountAfterSort(values, sv[idx] + 1);
  }

  // The percentile is one of the values; at most len*pct/100 of them lie below it, and more
  // than that (or all of them) lie below anything greater.
  lemma PctRank(values: seq<int>, pct: nat)
    requires values != []
    ensures var r := Pct(values, pct);
            var rank := RankBelow(|values|, pct);
            && r.Some? && r.value in values
            && CountBelow(values, r.value) <= rank
            && CountBelow(values, r.value) < |values|
            && CountBelow(values, r.value + 1) >= (if rank < |values| then rank + 1 else |values|)
  {
    hide Sort, CountBelow, RankBelow;
    var rank := RankBelow(|values|, pct);
    RankOf(values, if rank < |values| - 1 then rank else |values| - 1);
  }

  // Half a tenth is rounded to the even tenth, and a mean times its count is the sum.
  lemma RoundsTies(n: int)
    ensures RoundTenth((2 * n + 1) as real / 20.0) == (if n % 2 == 0 then n else n + 1) as real / 10.0
  {
    var x := (2 * n + 1) as real / 20.0;
    assert 10.0 * x == n as real + 0.5;
    assert (10.0 * x).Floor == n;
  }

  lemma MeanTimesCount(times: seq<nat>)
    requires times != []
    ensures MeanSeconds(times) * |times| as real * 1000000.0 == Sum(times) as real
  {
  }
}
