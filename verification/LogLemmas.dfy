/** How the validator's views of a log move when one entry is appended. */
module LogLemmas {
  import opened Records
  import opened Validator
  import opened Transactions

  lemma Prefix<T>(s: seq<T>, e: T)
    ensures (s + [e])[..|s + [e]| - 1] == s && (s + [e])[|s|] == e
  {
  }

  /** Every view of an Operation after one more entry. */
  lemma Snoc(log: seq<Entry>, e: Entry, o: OpId)
    ensures Published(log + [e], o) == Published(log, o) + CallsOf(e, o)
    ensures SettlementCount(log + [e], o) == SettlementCount(log, o) + if IsSettlement(e, o) then 1 else 0
    ensures OperationUsage(log + [e], o) ==
            if Owned(e, o) then ChargeEntry(OperationUsage(log, o), e.body) else OperationUsage(log, o)
    ensures SessionUsage(log + [e]) == ChargeEntry(SessionUsage(log), e.body)
  {
    Prefix(log, e);
  }

  lemma SnocCount(log: seq<Entry>, e: Entry, o: OpId, c: CallId)
    ensures ResultCount(log + [e], o, c) == ResultCount(log, o, c) + if AnswersCall(e, o, c) then 1 else 0
  {
    Prefix(log, e);
  }

  lemma SnocHooks(log: seq<Entry>, e: Entry, o: OpId, b: Binding)
    ensures HooksOf(log + [e], o, b) == HooksOf(log, o, b) + if IsHookResult(e, o, b) then [e.body.hook] else []
    ensures HookEntriesOf(log + [e], o, b) == HookEntriesOf(log, o, b) + if IsHookResult(e, o, b) then [e.id] else []
  {
    Prefix(log, e);
  }

  lemma SnocSucceeded(log: seq<Entry>, e: Entry, o: OpId, c: CallId)
    ensures SucceededHooks(log + [e], o, c) ==
            SucceededHooks(log, o, c) +
            if IsHookResult(e, o, ForCall(c)) && e.body.outcome == HookSucceeded then [e.body.hook] else []
  {
    Prefix(log, e);
  }

  /** An entry another Operation owns, or none does, moves no view of this one. */
  lemma SnocForeign(log: seq<Entry>, e: Entry, o: OpId)
    requires !Owned(e, o)
    ensures Published(log + [e], o) == Published(log, o)
    ensures SettlementCount(log + [e], o) == SettlementCount(log, o)
    ensures OperationUsage(log + [e], o) == OperationUsage(log, o)
    ensures forall c :: ResultCount(log + [e], o, c) == ResultCount(log, o, c)
    ensures forall b :: HooksOf(log + [e], o, b) == HooksOf(log, o, b)
    ensures forall b :: HookEntriesOf(log + [e], o, b) == HookEntriesOf(log, o, b)
    ensures forall c :: SucceededHooks(log + [e], o, c) == SucceededHooks(log, o, c)
  {
    Prefix(log, e);
  }

  // ---- Membership forms of the recursive views -----------------------------

  lemma {:induction false} InHooks(log: seq<Entry>, o: OpId, b: Binding, h: HookId)
    ensures h in HooksOf(log, o, b) <==> exists i :: 0 <= i < |log| && IsHookResult(log[i], o, b) && log[i].body.hook == h
  {
    if |log| > 0 {
      var n := |log| - 1;
      InHooks(log[..n], o, b, h);
      assert forall i :: 0 <= i < n ==> log[..n][i] == log[i];
      if h in HooksOf(log, o, b) && h !in HooksOf(log[..n], o, b) {
        assert IsHookResult(log[n], o, b) && log[n].body.hook == h;
      }
    }
  }

  lemma {:induction false} NoHooks(log: seq<Entry>, o: OpId, b: Binding)
    requires forall i :: 0 <= i < |log| ==> !IsHookResult(log[i], o, b)
    ensures HooksOf(log, o, b) == [] && HookEntriesOf(log, o, b) == []
    ensures b.ForCall? ==> SucceededHooks(log, o, b.call) == []
  {
    if |log| > 0 {
      NoHooks(log[..|log| - 1], o, b);
    }
  }

  lemma {:induction false} InPublished(log: seq<Entry>, o: OpId, i: int, k: int)
    requires IsReservation(log, i, k) && Owned(log[i], o)
    ensures Pending(log[i].id, log[i].body.calls[k].id, Reserved(log, i, k)) in Published(log, o)
  {
    var n := |log| - 1;
    if i == n {
      assert CallsOf(log[n], o)[k] == Pending(log[i].id, log[i].body.calls[k].id, Reserved(log, i, k));
    } else {
      InPublished(log[..n], o, i, k);
    }
  }

  ghost predicate Publishes(log: seq<Entry>, o: OpId, p: Pending, i: int, k: int) {
    IsReservation(log, i, k) && Owned(log[i], o) &&
    p == Pending(log[i].id, log[i].body.calls[k].id, Reserved(log, i, k))
  }

  lemma {:induction false} PublishedBy(log: seq<Entry>, o: OpId, p: Pending) returns (i: int, k: int)
    requires p in Published(log, o)
    ensures Publishes(log, o, p, i, k)
  {
    var n := |log| - 1;
    if p in Published(log[..n], o) {
      i, k := PublishedBy(log[..n], o, p);
    } else {
      var j :| 0 <= j < |CallsOf(log[n], o)| && CallsOf(log[n], o)[j] == p;
      i, k := n, j;
    }
  }

  lemma {:induction false} CountWitness(log: seq<Entry>, o: OpId, c: CallId)
    ensures ResultCount(log, o, c) > 0 <==> exists j :: 0 <= j < |log| && AnswersCall(log[j], o, c)
  {
    if |log| > 0 {
      var n := |log| - 1;
      CountWitness(log[..n], o, c);
      assert forall j :: 0 <= j < n ==> log[..n][j] == log[j];
      if AnswersCall(log[n], o, c) {
      } else if exists j :: 0 <= j < |log| && AnswersCall(log[j], o, c) {
        var j :| 0 <= j < |log| && AnswersCall(log[j], o, c);
        assert AnswersCall(log[..n][j], o, c);
      }
    }
  }

  lemma {:induction false} CountAtMostOne(log: seq<Entry>, o: OpId, c: CallId)
    requires forall i, j :: 0 <= i < |log| && 0 <= j < |log| && AnswersCall(log[i], o, c) && AnswersCall(log[j], o, c) ==> i == j
    ensures ResultCount(log, o, c) <= 1
  {
    if |log| > 0 {
      var n := |log| - 1;
      var rest := log[..n];
      assert forall i :: 0 <= i < n ==> rest[i] == log[i];
      if AnswersCall(log[n], o, c) {
        CountWitness(rest, o, c);
        assert ResultCount(rest, o, c) == 0;
      } else {
        CountAtMostOne(rest, o, c);
      }
    }
  }

  // ---- Unresolved calls ------------------------------------------------------

  lemma {:induction false} UnresolvedConcat(a: seq<Pending>, b: seq<Pending>, log: seq<Entry>, o: OpId)
    ensures Unresolved(a + b, log, o) == Unresolved(a, log, o) + Unresolved(b, log, o)
  {
    if |a| == 0 {
      assert a + b == b;
    } else {
      assert (a + b)[1..] == a[1..] + b;
      UnresolvedConcat(a[1..], b, log, o);
    }
  }

  lemma {:induction false} UnresolvedSame(calls: seq<Pending>, log: seq<Entry>, log': seq<Entry>, o: OpId)
    requires forall p :: p in calls ==> (ResultCount(log, o, p.call) == 0 <==> ResultCount(log', o, p.call) == 0)
    ensures Unresolved(calls, log, o) == Unresolved(calls, log', o)
  {
    if |calls| > 0 {
      assert calls[0] in calls;
      UnresolvedSame(calls[1..], log, log', o);
    }
  }

  lemma {:induction false} UnresolvedAll(calls: seq<Pending>, log: seq<Entry>, o: OpId)
    requires forall p :: p in calls ==> ResultCount(log, o, p.call) == 0
    ensures Unresolved(calls, log, o) == calls
  {
    if |calls| > 0 {
      assert calls[0] in calls;
      UnresolvedAll(calls[1..], log, o);
    }
  }

  lemma {:induction false} InUnresolved(calls: seq<Pending>, log: seq<Entry>, o: OpId, p: Pending)
    ensures p in Unresolved(calls, log, o) <==> p in calls && ResultCount(log, o, p.call) == 0
  {
    if |calls| > 0 {
      InUnresolved(calls[1..], log, o, p);
      assert p in calls <==> p == calls[0] || p in calls[1..];
    }
  }

  predicate DistinctCalls(calls: seq<Pending>) {
    forall i, j :: 0 <= i < j < |calls| ==> calls[i].call != calls[j].call
  }

  lemma {:induction false} UnresolvedDistinct(calls: seq<Pending>, log: seq<Entry>, o: OpId)
    requires DistinctCalls(calls)
    ensures DistinctCalls(Unresolved(calls, log, o))
  {
    if |calls| > 0 {
      var rest := calls[1..];
      UnresolvedDistinct(rest, log, o);
      var un := Unresolved(rest, log, o);
      forall j | 0 <= j < |un| ensures un[j].call != calls[0].call {
        InUnresolved(rest, log, o, un[j]);
      }
    }
  }

  /** When exactly one unresolved call becomes answered, exactly it leaves the list. */
  lemma {:induction false} UnresolvedRemoved(calls: seq<Pending>, log: seq<Entry>, log': seq<Entry>, o: OpId, i: int)
    requires DistinctCalls(calls)
    requires 0 <= i < |Unresolved(calls, log, o)|
    requires forall p :: p in calls ==>
      (ResultCount(log', o, p.call) == 0 <==> ResultCount(log, o, p.call) == 0 && p.call != Unresolved(calls, log, o)[i].call)
    ensures Unresolved(calls, log', o) == WithoutIndex(Unresolved(calls, log, o), i)
  {
    hide ResultCount;
    var un := Unresolved(calls, log, o);
    var rest, head := calls[1..], calls[0];
    assert head in calls;
    assert forall p :: p in rest ==> p in calls;
    var un' := Unresolved(rest, log, o);
    if ResultCount(log, o, head.call) != 0 {
      assert un == un';
      UnresolvedRemoved(rest, log, log', o, i);
    } else if i == 0 {
      assert un == [head] + un' && WithoutIndex(un, 0) == un';
      UnresolvedSame(rest, log, log', o);
    } else {
      assert un == [head] + un' && un'[i - 1] == un[i];
      InUnresolved(rest, log, o, un[i]);
      UnresolvedRemoved(rest, log, log', o, i - 1);
      assert WithoutIndex(un, i) == [head] + WithoutIndex(un', i - 1);
    }
  }

  // ---- Provenance ----------------------------------------------------------------

  lemma {:induction false} BackedSame(ids: seq<HookId>, a: seq<HookId>, b: seq<HookId>)
    requires forall h :: h in ids ==> (h in a <==> h in b)
    ensures Backed(ids, a) == Backed(ids, b)
  {
    if |ids| > 0 {
      assert ids[0] in ids;
      BackedSame(ids[1..], a, b);
    }
  }

  lemma {:induction false} BackedConcat(a: seq<HookId>, b: seq<HookId>, results: seq<HookId>)
    ensures Backed(a + b, results) == Backed(a, results) + Backed(b, results)
  {
    if |a| == 0 {
      assert a + b == b;
    } else {
      assert (a + b)[0] == a[0] && (a + b)[1..] == a[1..] + b;
      BackedConcat(a[1..], b, results);
      var head := if a[0] in results then [a[0]] else [];
      assert head + (Backed(a[1..], results) + Backed(b, results)) == (head + Backed(a[1..], results)) + Backed(b, results);
    }
  }
}
