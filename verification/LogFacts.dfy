/** What a consistent log says about calls and results, and how it grows. */
module LogFacts {
  import opened Records
  import opened Validator
  import opened LogLemmas

  lemma LaterIdDiffers(fork: bool, adm: map<OpId, Admission>, log: seq<Entry>, i: int, j: int)
    requires LogFits(fork, adm, log) && 0 <= i < j < |log|
    ensures log[i].id != log[j].id
  {
    assert Fits(fork, adm, log[..j], log[j]);
    assert log[..j][i].id == log[i].id;
  }

  lemma UniqueIds(fork: bool, adm: map<OpId, Admission>, log: seq<Entry>, i: int, j: int)
    requires LogFits(fork, adm, log)
    requires 0 <= i < |log| && 0 <= j < |log| && log[i].id == log[j].id
    ensures i == j
  {
    if i < j {
      LaterIdDiffers(fork, adm, log, i, j);
    } else if j < i {
      LaterIdDiffers(fork, adm, log, j, i);
    }
  }

  /** A call's reserved identity is committed exactly when a result answers the call. */
  lemma ResultCommitted(log: seq<Entry>, o: OpId, p: Pending)
    requires LogConsistent(log) && p in Published(log, o)
    ensures ResultCount(log, o, p.call) == 0 <==> !Committed(log, p.result)
  {
    var i, k := PublishedBy(log, o, p);
    CountWitness(log, o, p.call);
    if Committed(log, p.result) {
      var j :| 0 <= j < |log| && log[j].id == p.result;
      assert Settles(log[j], log[i], k);
      assert AnswersCall(log[j], o, p.call);
    }
    if j :| 0 <= j < |log| && AnswersCall(log[j], o, p.call) {
      var i', k' :| IsReservation(log, i', k') && Reserved(log, i', k') == log[j].id && Settles(log[j], log[i'], k');
      assert log[i'].body.calls[k'].id == log[i].body.calls[k].id;
      assert log[i'].owner == log[i].owner;
    }
  }

  lemma ResultAtMostOnce(fork: bool, adm: map<OpId, Admission>, log: seq<Entry>, o: OpId, c: CallId)
    requires LogFits(fork, adm, log) && LogConsistent(log)
    ensures ResultCount(log, o, c) <= 1
  {
    forall a, b | 0 <= a < |log| && 0 <= b < |log| && AnswersCall(log[a], o, c) && AnswersCall(log[b], o, c)
      ensures a == b
    {
      var i, k :| IsReservation(log, i, k) && Reserved(log, i, k) == log[a].id && Settles(log[a], log[i], k);
      var j, l :| IsReservation(log, j, l) && Reserved(log, j, l) == log[b].id && Settles(log[b], log[j], l);
      assert log[i].body.calls[k].id == log[j].body.calls[l].id && log[i].owner == log[j].owner;
      UniqueIds(fork, adm, log, a, b);
    }
    CountAtMostOne(log, o, c);
  }

  lemma {:induction false} PublishedDistinct(log: seq<Entry>, o: OpId)
    requires CallsUnique(log)
    ensures DistinctCalls(Published(log, o))
  {
    if |log| > 0 {
      var n := |log| - 1;
      var rest := log[..n];
      assert CallsUnique(rest) by {
        forall i, k, j, l |
          && IsReservation(rest, i, k) && IsReservation(rest, j, l) && rest[i].body.calls[k].id == rest[j].body.calls[l].id
          && (i == j || (rest[i].owner.Some? && rest[i].owner == rest[j].owner))
          ensures i == j && k == l
        {
          assert IsReservation(log, i, k) && IsReservation(log, j, l);
        }
      }
      PublishedDistinct(rest, o);
      var before, added := Published(rest, o), CallsOf(log[n], o);
      var all: seq<Pending> := before + added;
      forall i, j | 0 <= i < j < |all| ensures all[i].call != all[j].call {
        if j >= |before| {
          assert IsReservation(log, n, j - |before|);
          if i < |before| {
            var a, k := PublishedBy(rest, o, before[i]);
            assert IsReservation(log, a, k);
          } else {
            assert IsReservation(log, n, i - |before|);
          }
        }
      }
    }
  }

  // ---- Growing the log ----------------------------------------------------------

  lemma LogFitsAppend(fork: bool, adm: map<OpId, Admission>, log: seq<Entry>, e: Entry)
    requires LogFits(fork, adm, log) && Fits(fork, adm, log, e)
    ensures LogFits(fork, adm, log + [e])
  {
    var log' := log + [e];
    forall i | 0 <= i < |log'| ensures Fits(fork, adm, log'[..i], log'[i]) {
      if i < |log| {
        assert log'[..i] == log[..i];
      } else {
        assert log'[..i] == log;
      }
    }
  }

  /** New admissions invalidate no entry. */
  lemma LogFitsAdmit(fork: bool, adm: map<OpId, Admission>, adm': map<OpId, Admission>, log: seq<Entry>)
    requires LogFits(fork, adm, log)
    requires forall o :: o in adm ==> o in adm' && adm'[o] == adm[o]
    ensures LogFits(fork, adm', log)
  {
    forall i | 0 <= i < |log| ensures Fits(fork, adm', log[..i], log[i]) {
      assert Fits(fork, adm, log[..i], log[i]);
    }
  }

  lemma ReservationSnoc(log: seq<Entry>, e: Entry, i: int, k: int)
    ensures IsReservation(log + [e], i, k) <==>
            IsReservation(log, i, k) || (i == |log| && e.body.Assistant? && 0 <= k < |e.body.calls|)
    ensures IsReservation(log, i, k) ==>
            (log + [e])[i] == log[i] && Reserved(log + [e], i, k) == Reserved(log, i, k)
    ensures IsReservation(log + [e], i, k) && i == |log| ==> Reserved(log + [e], i, k) == e.body.calls[k].result
  {
  }

  lemma CommittedSnoc(log: seq<Entry>, e: Entry, id: EntryId)
    ensures Committed(log + [e], id) <==> Committed(log, id) || e.id == id
  {
    var log' := log + [e];
    if Committed(log, id) {
      var i :| 0 <= i < |log| && log[i].id == id;
      assert log'[i].id == id;
    }
    if e.id == id {
      assert log'[|log|].id == id;
    }
  }

  /** Entries that neither publish nor answer calls. */
  lemma ConsistentAppendPlain(log: seq<Entry>, e: Entry)
    requires LogConsistent(log) && IdentityFree(log, e.id)
    requires !e.body.Assistant? && !e.body.ToolResult?
    ensures LogConsistent(log + [e])
  {
    var log' := log + [e];
    assert forall i, k :: IsReservation(log', i, k) <==> IsReservation(log, i, k);
    assert ReservationsUnique(log') by {
      forall i, k, j, l |
        IsReservation(log', i, k) && IsReservation(log', j, l) && Reserved(log', i, k) == Reserved(log', j, l)
        ensures i == j && k == l
      {
        assert Reserved(log, i, k) == Reserved(log, j, l);
      }
    }
    assert CopiedCallsResolved(log') by {
      forall i, k | IsReservation(log', i, k) && log'[i].owner.None? ensures Committed(log', Reserved(log', i, k)) {
        CommittedSnoc(log, e, Reserved(log, i, k));
      }
    }
    ResultsAnswerGrow(log, e);
  }

  lemma ResultsAnswerGrow(log: seq<Entry>, e: Entry)
    requires ResultsAnswer(log)
    requires e.body.ToolResult? ==> ResultAnswers(log, e)
    ensures ResultsAnswer(log + [e])
  {
    var log' := log + [e];
    forall j | 0 <= j < |log'| && log'[j].body.ToolResult? ensures ResultAnswers(log', log'[j]) {
      var i, k :| IsReservation(log, i, k) && Reserved(log, i, k) == log'[j].id && Settles(log'[j], log[i], k);
      ReservationSnoc(log, e, i, k);
    }
  }

  /** The reservations of a new entry are fresh, and its calls are new to the Operation. */
  ghost predicate FreshCalls(log: seq<Entry>, o: OpId, id: EntryId, calls: seq<Call>) {
    && (forall k :: 0 <= k < |calls| ==> IdentityFree(log, calls[k].result) && calls[k].result != id)
    && (forall k, l :: 0 <= k < |calls| && 0 <= l < |calls| && calls[k].result == calls[l].result ==> k == l)
    && (forall k, l :: 0 <= k < |calls| && 0 <= l < |calls| && calls[k].id == calls[l].id ==> k == l)
    && (forall i, j, k :: IsReservation(log, i, j) && Owned(log[i], o) && 0 <= k < |calls| ==>
                            log[i].body.calls[j].id != calls[k].id)
  }

  lemma ConsistentAppendAssistant(log: seq<Entry>, e: Entry, o: OpId)
    requires LogConsistent(log) && IdentityFree(log, e.id)
    requires e.body.Assistant? && Owned(e, o) && FreshCalls(log, o, e.id, e.body.calls)
    ensures LogConsistent(log + [e])
  {
    var log' := log + [e];
    forall i, k ensures IsReservation(log', i, k) <==>
                        IsReservation(log, i, k) || (i == |log| && 0 <= k < |e.body.calls|)
    {
      ReservationSnoc(log, e, i, k);
    }
    assert forall i, k, l :: IsReservation(log, i, k) && 0 <= l < |e.body.calls| ==>
                               Reserved(log, i, k) != e.body.calls[l].result;
    assert ReservationsUnique(log') by {
      forall i, k, j, l |
        IsReservation(log', i, k) && IsReservation(log', j, l) && Reserved(log', i, k) == Reserved(log', j, l)
        ensures i == j && k == l
      {
        if i < |log| && j < |log| {
          assert Reserved(log, i, k) == Reserved(log, j, l);
        }
      }
    }
    assert forall j, k :: 0 <= j < |log| && 0 <= k < |e.body.calls| ==> log[j].id != e.body.calls[k].result by {
      assert forall k :: 0 <= k < |e.body.calls| ==> !Committed(log, e.body.calls[k].result);
    }
    assert ReservationsSettle(log') by {
      forall i, k, j | IsReservation(log', i, k) && 0 <= j < |log'| && log'[j].id == Reserved(log', i, k)
        ensures Settles(log'[j], log'[i], k)
      {
        if i < |log| {
          assert IsReservation(log, i, k);
          assert j < |log|;
        }
      }
    }
    assert CopiedCallsResolved(log') by {
      forall i, k | IsReservation(log', i, k) && log'[i].owner.None? ensures Committed(log', Reserved(log', i, k)) {
        CommittedSnoc(log, e, Reserved(log, i, k));
      }
    }
    ResultsAnswerGrow(log, e);
    assert CallsUnique(log') by {
      forall i, k, j, l |
        && IsReservation(log', i, k) && IsReservation(log', j, l) && log'[i].body.calls[k].id == log'[j].body.calls[l].id
        && (i == j || (log'[i].owner.Some? && log'[i].owner == log'[j].owner))
        ensures i == j && k == l
      {
        if i < |log| && j < |log| {
          assert IsReservation(log, i, k) && IsReservation(log, j, l);
        } else if i < |log| {
          assert IsReservation(log, i, k) && Owned(log[i], o);
        } else if j < |log| {
          assert IsReservation(log, j, l) && Owned(log[j], o);
        }
      }
    }
  }

  lemma ConsistentAppendResult(log: seq<Entry>, e: Entry)
    requires LogConsistent(log) && e.body.ToolResult? && ResultAnswers(log, e)
    ensures LogConsistent(log + [e])
  {
    var log' := log + [e];
    forall i, k ensures IsReservation(log', i, k) <==> IsReservation(log, i, k) {
      ReservationSnoc(log, e, i, k);
    }
    var a, b :| IsReservation(log, a, b) && Reserved(log, a, b) == e.id && Settles(e, log[a], b);
    assert ReservationsUnique(log') by {
      forall i, k, j, l |
        IsReservation(log', i, k) && IsReservation(log', j, l) && Reserved(log', i, k) == Reserved(log', j, l)
        ensures i == j && k == l
      {
        assert Reserved(log, i, k) == Reserved(log, j, l);
      }
    }
    assert ReservationsSettle(log') by {
      forall i, k, j | IsReservation(log', i, k) && 0 <= j < |log'| && log'[j].id == Reserved(log', i, k)
        ensures Settles(log'[j], log'[i], k)
      {
        assert IsReservation(log, i, k);
        if j == |log| {
          assert Reserved(log, i, k) == Reserved(log, a, b);
        }
      }
    }
    assert CopiedCallsResolved(log') by {
      forall i, k | IsReservation(log', i, k) && log'[i].owner.None? ensures Committed(log', Reserved(log', i, k)) {
        CommittedSnoc(log, e, Reserved(log, i, k));
      }
    }
    ResultsAnswerGrow(log, e);
  }
}
