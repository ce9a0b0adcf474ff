/** Two of the validator's loops, as it runs them (harness/graph.go), against the
    predicates they decide. */
module Passes {
  import opened Records
  import opened Validator
  import opened LogLemmas
  import opened History

  // ---- The cumulative cut-safety table -------------------------------------------------

  /** Call k of entry i has no result in the log. */
  ghost predicate Missing(log: seq<Entry>, i: int, k: int) {
    IsReservation(log, i, k) && !Committed(log, Reserved(log, i, k))
  }

  /** Call k of entry i has its result after position b. */
  ghost predicate ResultAfter(log: seq<Entry>, i: int, k: int, b: int) {
    IsReservation(log, i, k) && exists j :: 0 <= j < |log| && b < j && log[j].id == Reserved(log, i, k)
  }

  /** The named call really makes a cut after b unsafe. */
  ghost predicate Offends(log: seq<Entry>, b: int, c: CallId) {
    exists i, k :: IsReservation(log, i, k) && i <= b && log[i].body.calls[k].id == c &&
                   (Missing(log, i, k) || ResultAfter(log, i, k, b))
  }

  /** What the pass has seen of the calls before position n and before call m of entry n. */
  ghost predicate Seen(log: seq<Entry>, n: int, m: int, i: int, k: int) {
    IsReservation(log, i, k) && (i < n || (i == n && k < m))
  }

  ghost predicate PassState(log: seq<Entry>, n: int, m: int, missing: Option<CallId>, newest: int, newestCall: CallId) {
    && (missing.None? ==> forall i, k :: Seen(log, n, m, i, k) ==> !Missing(log, i, k))
    && (missing.Some? ==> exists i, k :: Seen(log, n, m, i, k) && Missing(log, i, k) && log[i].body.calls[k].id == missing.value)
    && -1 <= newest < |log|
    && (forall i, k, j :: Seen(log, n, m, i, k) && 0 <= j < |log| && log[j].id == Reserved(log, i, k) ==> j <= newest)
    && (newest >= 0 ==> exists i, k :: Seen(log, n, m, i, k) && log[newest].id == Reserved(log, i, k) &&
                                       log[i].body.calls[k].id == newestCall)
  }

  lemma NothingSeen(log: seq<Entry>, c: CallId)
    ensures PassState(log, 0, 0, None, -1, c)
  {
  }

  /** The state after one more call decides as the pass does. */
  lemma SeeCall(log: seq<Entry>, n: int, m: int, missing: Option<CallId>, newest: int, newestCall: CallId, at: int)
    requires DistinctIds(log) && PassState(log, n, m, missing, newest, newestCall) && IsReservation(log, n, m)
    requires -1 <= at < |log| && (at >= 0 ==> log[at].id == Reserved(log, n, m)) && (at < 0 ==> !Committed(log, Reserved(log, n, m)))
    ensures var c := log[n].body.calls[m].id;
            if at < 0 then PassState(log, n, m + 1, if missing.None? then Some(c) else missing, newest, newestCall)
            else if at > newest then PassState(log, n, m + 1, missing, at, c)
            else PassState(log, n, m + 1, missing, newest, newestCall)
  {
    assert Seen(log, n, m + 1, n, m);
    assert forall i, k :: Seen(log, n, m + 1, i, k) <==> Seen(log, n, m, i, k) || (i == n && k == m);
    if at >= 0 {
      assert Committed(log, Reserved(log, n, m));
    }
  }

  /** The verdict the table records for the boundary at n. */
  lemma CutVerdict(log: seq<Entry>, n: int, missing: Option<CallId>, newest: int, newestCall: CallId)
    requires DistinctIds(log) && 0 <= n < |log|
    requires PassState(log, n, if log[n].body.Assistant? then |log[n].body.calls| else 0, missing, newest, newestCall)
    ensures missing.Some? ==> !SafeCut(log, n) && Offends(log, n, missing.value)
    ensures missing.None? && newest > n ==> !SafeCut(log, n) && Offends(log, n, newestCall)
    ensures missing.None? && newest <= n ==> SafeCut(log, n)
  {
    var m := if log[n].body.Assistant? then |log[n].body.calls| else 0;
    assert forall i, k :: Seen(log, n, m, i, k) <==> IsReservation(log, i, k) && i <= n;
    if missing.Some? {
      var i, k :| Seen(log, n, m, i, k) && Missing(log, i, k) && log[i].body.calls[k].id == missing.value;
      assert !ResultBy(log, log[i].body.calls[k].result, n);
    } else if newest > n {
      var i, k :| Seen(log, n, m, i, k) && log[newest].id == Reserved(log, i, k) && log[i].body.calls[k].id == newestCall;
      assert ResultAfter(log, i, k, n);
      assert !ResultBy(log, log[i].body.calls[k].result, n);
    } else {
      forall i, k | 0 <= i <= n && i < |log| && log[i].body.Assistant? && 0 <= k < |log[i].body.calls|
        ensures ResultBy(log, log[i].body.calls[k].result, n)
      {
        assert Seen(log, n, m, i, k) && !Missing(log, i, k);
        var j :| 0 <= j < |log| && log[j].id == Reserved(log, i, k);
        assert j <= newest;
      }
    }
  }

  lemma NextEntry(log: seq<Entry>, n: int, m: int, missing: Option<CallId>, newest: int, newestCall: CallId)
    requires 0 <= n < |log| && PassState(log, n, m, missing, newest, newestCall)
    requires m == if log[n].body.Assistant? then |log[n].body.calls| else 0
    ensures PassState(log, n + 1, 0, missing, newest, newestCall)
  {
    assert forall i, k :: Seen(log, n + 1, 0, i, k) <==> Seen(log, n, m, i, k);
  }

  /** The calls of one entry, folded into the running maximum and the first missing call. */
  method SeeCalls(log: seq<Entry>, byId: map<EntryId, nat>, n: nat, missing: Option<CallId>, newest: int, newestCall: CallId)
    returns (missing': Option<CallId>, newest': int, newestCall': CallId)
    requires DistinctIds(log) && n < |log| && PassState(log, n, 0, missing, newest, newestCall)
    requires forall id :: id in byId <==> Committed(log, id)
    requires forall id :: id in byId ==> byId[id] < |log| && log[byId[id]].id == id
    ensures PassState(log, n, if log[n].body.Assistant? then |log[n].body.calls| else 0, missing', newest', newestCall')
  {
    hide PassState, DistinctIds;
    missing', newest', newestCall' := missing, newest, newestCall;
    if log[n].body.Assistant? {
      var calls := log[n].body.calls;
      var m := 0;
      while m < |calls|
        invariant 0 <= m <= |calls|
        invariant PassState(log, n, m, missing', newest', newestCall')
      {
        var at := if calls[m].result in byId then byId[calls[m].result] else -1;
        SeeCall(log, n, m, missing', newest', newestCall', at);
        if at < 0 {
          if missing'.None? {
            missing' := Some(calls[m].id);
          }
        } else if at > newest' {
          newest', newestCall' := at, calls[m].id;
        }
        m := m + 1;
      }
    }
  }

  /** The table decides every boundary before n. */
  ghost predicate TableOk(log: seq<Entry>, n: nat, unsafe: map<EntryId, CallId>) {
    && (forall b: nat :: b < n && b < |log| ==> (log[b].id in unsafe <==> !SafeCut(log, b)))
    && (forall b: nat :: b < n && b < |log| && log[b].id in unsafe ==> Offends(log, b, unsafe[log[b].id]))
    && (forall id :: id in unsafe ==> exists b: nat :: b < n && b < |log| && log[b].id == id)
  }

  lemma TableStep(log: seq<Entry>, n: nat, unsafe: map<EntryId, CallId>, offender: Option<CallId>)
    requires DistinctIds(log) && n < |log| && TableOk(log, n, unsafe)
    requires offender.Some? ==> !SafeCut(log, n) && Offends(log, n, offender.value)
    requires offender.None? ==> SafeCut(log, n)
    ensures TableOk(log, n + 1, if offender.Some? then unsafe[log[n].id := offender.value] else unsafe)
  {
    hide SafeCut, Offends;
    assert forall b: nat :: b < n ==> log[b].id != log[n].id;
    assert log[n].id !in unsafe;
  }

  /** One cumulative pass marks a boundary exactly when its cut is unsafe, and always
      names a genuine offender. */
  method BuildCutSafety(log: seq<Entry>) returns (unsafe: map<EntryId, CallId>)
    requires DistinctIds(log)
    ensures forall b: nat :: b < |log| ==> (log[b].id in unsafe <==> !SafeCut(log, b))
    ensures forall b: nat :: b < |log| && log[b].id in unsafe ==> Offends(log, b, unsafe[log[b].id])
  {
    hide PassState, DistinctIds, SafeCut, Offends, Committed, IsReservation;
    var byId := IndexById(log);
    unsafe := map[];
    var newest, newestCall := -1, 0;
    var missing: Option<CallId> := None;
    var n := 0;
    NothingSeen(log, newestCall);
    while n < |log|
      invariant 0 <= n <= |log|
      invariant PassState(log, n, 0, missing, newest, newestCall)
      invariant TableOk(log, n, unsafe)
    {
      missing, newest, newestCall := SeeCalls(log, byId, n, missing, newest, newestCall);
      CutVerdict(log, n, missing, newest, newestCall);
      var offender := if missing.Some? then missing else if newest > n then Some(newestCall) else None;
      TableStep(log, n, unsafe, offender);
      if offender.Some? {
        unsafe := unsafe[log[n].id := offender.value];
      }
      NextEntry(log, n, if log[n].body.Assistant? then |log[n].body.calls| else 0, missing, newest, newestCall);
      n := n + 1;
    }
  }

  method IndexById(log: seq<Entry>) returns (byId: map<EntryId, nat>)
    requires DistinctIds(log)
    ensures forall id :: id in byId <==> Committed(log, id)
    ensures forall id :: id in byId ==> byId[id] < |log| && log[byId[id]].id == id
  {
    byId := map[];
    var i := 0;
    while i < |log|
      invariant 0 <= i <= |log|
      invariant forall id :: id in byId ==> byId[id] < i && log[byId[id]].id == id
      invariant forall j :: 0 <= j < i ==> log[j].id in byId
    {
      byId := byId[log[i].id := i];
      i := i + 1;
    }
  }

  /** Appending entries never turns a safe cut unsafe. */
  lemma SafeCutStays(log: seq<Entry>, es: seq<Entry>, b: nat)
    requires b < |log| && SafeCut(log, b)
    ensures SafeCut(log + es, b)
  {
    var log' := log + es;
    forall i, k | 0 <= i <= b && i < |log'| && log'[i].body.Assistant? && 0 <= k < |log'[i].body.calls|
      ensures ResultBy(log', log'[i].body.calls[k].result, b)
    {
      assert log'[i] == log[i];
      assert ResultBy(log, log[i].body.calls[k].result, b);
      var j :| 0 <= j <= b && j < |log| && log[j].id == log[i].body.calls[k].result;
      assert log'[j] == log[j];
    }
  }

  // ---- Evidence against committed hook order ------------------------------------------------

  predicate DistinctHooks(results: seq<HookId>) {
    forall i, j :: 0 <= i < j < |results| ==> results[i] != results[j]
  }

  method FindHook(results: seq<HookId>, h: HookId) returns (at: int)
    ensures -1 <= at < |results|
    ensures at >= 0 ==> results[at] == h
    ensures at < 0 <==> h !in results
  {
    at := 0;
    while at < |results|
      invariant 0 <= at <= |results| && h !in results[..at]
    {
      if results[at] == h {
        return;
      }
      at := at + 1;
    }
    at := -1;
  }

  lemma BackedSnoc(ids: seq<HookId>, n: nat, results: seq<HookId>)
    requires n < |ids|
    ensures Backed(ids[..n + 1], results) == Backed(ids[..n], results) + if ids[n] in results then [ids[n]] else []
  {
    assert ids[..n + 1] == ids[..n] + [ids[n]];
    BackedConcat(ids[..n], [ids[n]], results);
    assert [ids[n]][1..] == [];
  }

  lemma BackedPrefix(ids: seq<HookId>, n: nat, results: seq<HookId>)
    requires n <= |ids|
    ensures Backed(ids[..n], results) <= Backed(ids, results)
  {
    assert ids == ids[..n] + ids[n..];
    BackedConcat(ids[..n], ids[n..], results);
  }

  /** Accepts exactly the provenance that names every result before the record,
      completely and in committed order, and none at or after it. */
  method ValidateEvidenceHookOrder(ids: seq<HookId>, results: seq<HookId>, limit: nat) returns (ok: bool)
    requires limit <= |results| && DistinctHooks(results)
    ensures ok <==> Reconciles(ids, results[..limit]) && forall h :: h in ids ==> h !in results[limit..]
  {
    var next := 0;
    var n := 0;
    while n < |ids|
      invariant 0 <= n <= |ids| && 0 <= next <= limit
      invariant Backed(ids[..n], results[..limit]) == results[..next]
      invariant forall h :: h in ids[..n] ==> h !in results[limit..]
    {
      var at := FindHook(results, ids[n]);
      BackedSnoc(ids, n, results[..limit]);
      if at >= limit {
        assert results[limit..][at - limit] == ids[n];
        assert ids[n] in ids && ids[n] in results[limit..];
        return false;
      }
      if at >= 0 {
        assert results[..limit][at] == ids[n];
        if at != next {
          BackedPrefix(ids, n + 1, results[..limit]);
          assert Backed(ids[..n + 1], results[..limit])[next] == ids[n];
          assert Backed(ids, results[..limit])[next] == ids[n];
          assert next < limit ==> results[..limit][next] == results[next] != results[at];
          return false;
        }
        assert results[..next + 1] == results[..next] + [ids[n]];
        next := next + 1;
      }
      assert ids[..n + 1] == ids[..n] + [ids[n]];
      n := n + 1;
    }
    assert ids[..n] == ids;
    ok := next == limit;
  }
}
