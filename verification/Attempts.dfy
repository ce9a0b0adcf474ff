/** The physical attempts of one logical model effect (harness/attempt.go, with the
    effects of harness/effect.go and compact.go that run it): every attempt falls under the
    one committed intent, and at most one stream is accepted and assembled. What the
    provider, the retry policy and the execution context do is a script. */
module Attempts {
  import opened Records
  import opened Transactions
  import opened Snapshots
  import opened SessionStore

  type StreamId = nat

  /** One turn of the loop: what is observed before the attempt, what the attempt returns,
      and what the policy and the context say afterwards. */
  datatype Trial = Trial(
    cancelledBefore: bool,
    rejected: bool,
    stream: Option<StreamId>,
    failed: bool,
    cancelledAfter: bool,
    delay: Option<int>,
    cancelledWaiting: bool)

  datatype AttemptResult = Accepted(stream: StreamId) | AttemptFailed | AttemptInterrupted | AttemptInvalid | Unfinished

  /** The attempt is made at all. */
  predicate Made(t: Trial) {
    !t.cancelledBefore && !t.rejected
  }

  /** Exactly one stream and no error. */
  predicate Accepts(t: Trial) {
    Made(t) && t.stream.Some? && !t.failed
  }

  /** Both or neither of a stream and an error. */
  predicate Breaks(t: Trial) {
    Made(t) && (t.stream.Some? <==> t.failed)
  }

  /** One error and no stream: the only outcome the policy may classify. */
  predicate Fails(t: Trial) {
    Made(t) && t.stream.None? && t.failed
  }

  predicate Retries(t: Trial) {
    Fails(t) && !t.cancelledAfter && t.delay.Some? && t.delay.value >= 0 && !t.cancelledWaiting
  }

  /** The loop ended at turn n of the script with this result: every earlier turn failed
      and was retried. */
  predicate LoopEnds(trials: seq<Trial>, n: nat, res: AttemptResult) {
    && n <= |trials| && (forall k :: 0 <= k < n ==> Retries(trials[k]))
    && if n == |trials| then res == Unfinished
       else
         var t := trials[n];
         match res
         case Accepted(s) => Accepts(t) && t.stream == Some(s)
         case AttemptInvalid => (!t.cancelledBefore && t.rejected) || Breaks(t)
         case AttemptInterrupted =>
           t.cancelledBefore || (Fails(t) && (t.cancelledAfter || (t.delay.Some? && t.delay.value >= 0 && t.cancelledWaiting)))
         case AttemptFailed => Fails(t) && !t.cancelledAfter && (t.delay.None? || t.delay.value < 0)
         case Unfinished => false
  }

  /** How many attempts a loop that ended at turn n made. */
  function MadeBy(trials: seq<Trial>, n: nat): nat
    requires n <= |trials|
  {
    if n < |trials| && Made(trials[n]) then n + 1 else n
  }

  /** The script alone decides where the loop ends and how. */
  lemma LoopDetermined(trials: seq<Trial>, n: nat, res: AttemptResult, m: nat, other: AttemptResult)
    requires LoopEnds(trials, n, res) && LoopEnds(trials, m, other)
    ensures n == m && res == other
  {
  }

  /** No attempt before the accepted one supplied a stream, and none follows it. */
  lemma AcceptsLast(trials: seq<Trial>, n: nat, res: AttemptResult)
    requires LoopEnds(trials, n, res) && res.Accepted?
    ensures MadeBy(trials, n) == n + 1
    ensures forall k :: 0 <= k < n ==> Made(trials[k]) && trials[k].stream.None?
  {
    assert forall k :: 0 <= k < n ==> Retries(trials[k]);
  }

  /** The physical Model callback and the assembler behind it. Each attempt and each
      assembly is recorded with the intent it fell under. */
  class Provider {
    ghost var attempts: seq<Effect>
    ghost var assembled: seq<(Effect, StreamId)>
    ghost var closed: seq<StreamId>

    constructor ()
      ensures attempts == [] && assembled == [] && closed == []
    {
      attempts, assembled, closed := [], [], [];
    }

    /** One physical attempt; it runs only under its committed intent. */
    method Attempt(store: Store, o: OpId, effect: Effect, t: Trial) returns (stream: Option<StreamId>, failed: bool)
      requires o in store.ops && store.ops[o].active == Some(effect)
      modifies this`attempts
      ensures attempts == old(attempts) + [effect] && stream == t.stream && failed == t.failed
    {
      attempts := attempts + [effect];
      stream, failed := t.stream, t.failed;
    }

    method Assemble(effect: Effect, stream: StreamId)
      modifies this`assembled
      ensures assembled == old(assembled) + [(effect, stream)]
    {
      assembled := assembled + [(effect, stream)];
    }

    method Close(stream: StreamId)
      modifies this`closed
      ensures closed == old(closed) + [stream]
    {
      closed := closed + [stream];
    }
  }

  function Copies<T>(x: T, n: nat): seq<T> {
    seq(n, i => x)
  }

  /** The streams a broken attempt supplied. */
  function Leftover(trials: seq<Trial>, n: nat, res: AttemptResult): seq<StreamId>
    requires n <= |trials|
  {
    if n < |trials| && res == AttemptInvalid && Breaks(trials[n]) && trials[n].stream.Some? then [trials[n].stream.value] else []
  }

  /** The one attempt loop shared by conversation and maintenance effects. */
  method RunModelAttempts(provider: Provider, store: Store, o: OpId, effect: Effect, trials: seq<Trial>)
    returns (res: AttemptResult, ghost n: nat)
    requires o in store.ops && store.ops[o].active == Some(effect)
    modifies provider
    ensures LoopEnds(trials, n, res)
    ensures provider.attempts == old(provider.attempts) + Copies(effect, MadeBy(trials, n))
    ensures provider.assembled == old(provider.assembled)
    ensures provider.closed == old(provider.closed) + Leftover(trials, n, res)
  {
    var k := 0;
    while k < |trials|
      invariant 0 <= k <= |trials| && forall x :: 0 <= x < k ==> Retries(trials[x])
      invariant provider.attempts == old(provider.attempts) + Copies(effect, k)
      invariant provider.assembled == old(provider.assembled) && provider.closed == old(provider.closed)
    {
      var t := trials[k];
      if t.cancelledBefore {
        return AttemptInterrupted, k;
      }
      if t.rejected {
        return AttemptInvalid, k;
      }
      var stream, failed := provider.Attempt(store, o, effect, t);
      assert Copies(effect, k + 1) == Copies(effect, k) + [effect];
      if !failed && stream.Some? {
        return Accepted(stream.value), k;
      }
      if !failed || stream.Some? {
        if stream.Some? {
          provider.Close(stream.value);
        }
        return AttemptInvalid, k;
      }
      if t.cancelledAfter {
        return AttemptInterrupted, k;
      }
      if t.delay.None? || t.delay.value < 0 {
        return AttemptFailed, k;
      }
      if t.cancelledWaiting {
        return AttemptInterrupted, k;
      }
      k := k + 1;
    }
    res, n := Unfinished, k;
  }

  /** How one logical effect's dispatch comes out. */
  datatype Dispatched = Refused | CutOff | Ran(result: AttemptResult)

  /** One logical model effect up to its settlement: the intent commits once, cancellation
      observed behind it starts nothing, every attempt falls under it, and an accepted
      stream, the only one, is assembled once. */
  method DispatchEffect(provider: Provider, store: Store, view: Snapshot, o: OpId, effect: Effect, suspended: Option<RunningRequest>,
                        cancelled: bool, trials: seq<Trial>) returns (out: Dispatched, ghost n: nat)
    requires effect.ConversationEffect? || effect.MaintenanceEffect?
    requires store.Valid() && Follows(view, store.Snap())
    modifies provider, store
    ensures out.Refused? <==>
            !(IsQuiet(view.g, o) && IsQuiet(old(store.View()), o) && OpMatches(view, old(store.Snap()), o))
    ensures out.Refused? ==> store.ops == old(store.ops)
    ensures !out.Refused? ==> o in store.ops && store.ops[o].active == Some(effect)
    ensures store.log == old(store.log) && store.session == old(store.session)
    ensures out.CutOff? ==> cancelled
    ensures !out.Ran? ==> provider.attempts == old(provider.attempts) && provider.assembled == old(provider.assembled)
    ensures out.Ran? ==> LoopEnds(trials, n, out.result)
                         && provider.attempts == old(provider.attempts) + Copies(effect, MadeBy(trials, n))
    ensures provider.assembled == old(provider.assembled) + if out.Ran? && out.result.Accepted? then [(effect, out.result.stream)] else []
  {
    hide Follows, LoopEnds, Leftover;
    n := 0;
    var verdict := store.BeginModelEffect(view, o, effect, suspended);
    if verdict != Committed {
      return Refused, 0;
    }
    if cancelled {
      return CutOff, 0;
    }
    var res;
    res, n := RunModelAttempts(provider, store, o, effect, trials);
    if res.Accepted? {
      provider.Assemble(effect, res.stream);
    }
    out := Ran(res);
  }
}
