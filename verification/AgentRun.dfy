/** The sequential agent loop (agent/run.go) and its settlement rules
    (agent/settlement.go). What the caller's request, model and tool boundaries do is
    a script: every behaviour of theirs is some script. */
module AgentRun {
  import opened Records

  type Source = nat

  datatype ToolCall = ToolCall(id: CallId, wellFormed: bool)
  datatype OutputMessage = OutputMessage(calls: seq<ToolCall>, payload: bool, wellFormed: bool)
  datatype Output = Output(status: OutputStatus, source: Source, message: Option<OutputMessage>, detail: Text)

  datatype Disposition = Ready | Continue | Fail | Interrupt
  datatype Settled = Settled(disposition: Disposition, output: Option<Output>, detail: Text)

  datatype TerminalStatus = TerminalSuccess | TerminalFailure | TerminalInterruption
  datatype TerminalResult = TerminalResult(status: TerminalStatus, lastOutput: Option<Output>, unstarted: seq<ToolCall>, detail: Text)

  const INTERRUPTED_DETAIL := "agent interrupted"

  // ---- Outputs ---------------------------------------------------------------------

  /** The model package's output rules that the loop relies on (model/output.go). */
  predicate ValidOutput(o: Output) {
    && (o.message.Some? ==> o.message.value.wellFormed && forall i :: 0 <= i < |o.message.value.calls| ==> o.message.value.calls[i].wellFormed)
    && (if o.status == Completed
        then o.message.Some? && (o.message.value.payload || o.message.value.calls != []) && o.detail == ""
        else (o.message.Some? ==> o.message.value.calls == []) && o.detail != "")
  }

  function CallsOfOutput(o: Option<Output>): seq<ToolCall> {
    if o.Some? && o.value.message.Some? then o.value.message.value.calls else []
  }

  predicate UniqueIds(calls: seq<ToolCall>) {
    forall i, j :: 0 <= i < j < |calls| ==> calls[i].id != calls[j].id
  }

  method RequireUniqueCallIds(calls: seq<ToolCall>) returns (ok: bool)
    ensures ok <==> UniqueIds(calls)
  {
    var seen: set<CallId> := {};
    var i := 0;
    while i < |calls|
      invariant 0 <= i <= |calls| && UniqueIds(calls[..i])
      invariant forall c :: c in seen <==> exists k :: 0 <= k < i && calls[k].id == c
    {
      if calls[i].id in seen {
        return false;
      }
      seen := seen + {calls[i].id};
      i := i + 1;
    }
    assert calls[..i] == calls;
    ok := true;
  }

  // ---- Settlements -------------------------------------------------------------------

  /** The closed disposition table. */
  predicate RowValid(s: Settled) {
    match s.disposition
    case Ready => s.output.Some? && s.output.value.status == Completed && s.detail == ""
    case Continue =>
      && s.output.Some? && s.detail == ""
      && (match s.output.value.status
          case Errored => s.output.value.message.Some? && s.output.value.message.value.payload
          case Completed => CallsOfOutput(s.output) == []
          case Interrupted => false)
    case Fail => s.detail != "" && (s.output.Some? ==> s.output.value.status == Errored)
    case Interrupt =>
      s.detail != "" && (s.output.Some? ==> s.output.value.status == Interrupted || s.output.value.status == Completed)
  }

  predicate SettlementValid(s: Settled, expected: Source) {
    RowValid(s) &&
    (s.output.Some? ==> s.output.value.source == expected && ValidOutput(s.output.value) && UniqueIds(CallsOfOutput(s.output)))
  }

  // ---- Terminals ------------------------------------------------------------------------

  function IndexOf(calls: seq<ToolCall>, id: CallId): (k: int)
    ensures -1 <= k < |calls|
    ensures k >= 0 ==> calls[k].id == id && forall j :: 0 <= j < k ==> calls[j].id != id
    ensures k < 0 ==> forall j :: 0 <= j < |calls| ==> calls[j].id != id
  {
    if |calls| == 0 then -1
    else
      var k := IndexOf(calls[..|calls| - 1], id);
      if k >= 0 then k
      else if calls[|calls| - 1].id == id then |calls| - 1
      else -1
  }

  /** Each unstarted call identifies a later call of the output than the one before it. */
  predicate UnstartedValid(unstarted: seq<ToolCall>, out: Option<Output>) {
    |unstarted| > 0 ==>
      && out.Some? && out.value.status == Completed
      && (forall i :: 0 <= i < |unstarted| ==> unstarted[i].wellFormed && IndexOf(CallsOfOutput(out), unstarted[i].id) >= 0)
      && (forall i :: 0 < i < |unstarted| ==>
            IndexOf(CallsOfOutput(out), unstarted[i - 1].id) < IndexOf(CallsOfOutput(out), unstarted[i].id))
  }

  method FindCall(produced: seq<ToolCall>, id: CallId) returns (idx: int)
    ensures idx == IndexOf(produced, id)
  {
    idx := 0;
    while idx < |produced|
      invariant 0 <= idx <= |produced|
      invariant forall j :: 0 <= j < idx ==> produced[j].id != id
    {
      if produced[idx].id == id {
        return;
      }
      idx := idx + 1;
    }
    idx := -1;
  }

  method ValidateUnstartedCalls(unstarted: seq<ToolCall>, out: Option<Output>) returns (ok: bool)
    ensures ok <==> UnstartedValid(unstarted, out)
  {
    if |unstarted| == 0 {
      return true;
    }
    if out.None? || out.value.status != Completed {
      return false;
    }
    hide IndexOf;
    var produced := CallsOfOutput(out);
    var prev := -1;
    var i := 0;
    while i < |unstarted|
      invariant 0 <= i <= |unstarted|
      invariant i == 0 ==> prev == -1
      invariant i > 0 ==> prev == IndexOf(produced, unstarted[i - 1].id) >= 0
      invariant forall k :: 0 <= k < i ==> unstarted[k].wellFormed && 0 <= IndexOf(produced, unstarted[k].id)
      invariant forall k :: 0 < k < i ==> IndexOf(produced, unstarted[k - 1].id) < IndexOf(produced, unstarted[k].id)
    {
      if !unstarted[i].wellFormed {
        return false;
      }
      var idx := FindCall(produced, unstarted[i].id);
      if idx < 0 || idx <= prev {
        return false;
      }
      prev := idx;
      i := i + 1;
    }
    ok := true;
  }

  /** The unstarted calls are pairwise distinct calls of the output, in its order. */
  lemma {:induction false} UnstartedIncrease(unstarted: seq<ToolCall>, out: Option<Output>, i: nat, j: nat)
    requires UnstartedValid(unstarted, out) && i < j < |unstarted|
    ensures IndexOf(CallsOfOutput(out), unstarted[i].id) < IndexOf(CallsOfOutput(out), unstarted[j].id)
  {
    if i < j - 1 {
      UnstartedIncrease(unstarted, out, i, j - 1);
    }
  }

  /** The closed terminal table. */
  predicate TerminalValid(r: TerminalResult) {
    && (r.lastOutput.Some? ==> ValidOutput(r.lastOutput.value) && UniqueIds(CallsOfOutput(r.lastOutput)))
    && match r.status
       case TerminalSuccess =>
         r.detail == "" && r.unstarted == [] && r.lastOutput.Some? && r.lastOutput.value.status == Completed &&
         CallsOfOutput(r.lastOutput) == []
       case TerminalFailure =>
         r.detail != "" && r.unstarted == [] && (r.lastOutput.Some? ==> r.lastOutput.value.status != Interrupted)
       case TerminalInterruption =>
         r.detail != "" && (r.lastOutput.Some? ==> r.lastOutput.value.status != Errored) && UnstartedValid(r.unstarted, r.lastOutput)
  }

  lemma SuffixUnstarted(out: Output, n: nat)
    requires out.status == Completed && ValidOutput(out) && UniqueIds(CallsOfOutput(Some(out))) && n <= |CallsOfOutput(Some(out))|
    ensures UnstartedValid(CallsOfOutput(Some(out))[n..], Some(out))
  {
    var calls := CallsOfOutput(Some(out));
    forall i | n <= i < |calls| ensures IndexOf(calls, calls[i].id) == i {
      var k := IndexOf(calls, calls[i].id);
      assert k >= 0 && calls[k].id == calls[i].id;
    }
    forall i | 0 <= i < |calls[n..]| ensures calls[n..][i] == calls[n + i] {
    }
  }

  // ---- The assembly callback -------------------------------------------------------------

  /** One use of the callback: the identity it names, and what assembling the stream gives. */
  datatype Attempt = Attempt(source: Source, assembled: Option<Output>)

  class CallbackProtocol {
    const expected: Source
    var calls: nat
    var failed: bool
    ghost var attempts: seq<Attempt>

    ghost predicate Valid()
      reads this
    {
      && calls == |attempts|
      && (failed <==> |attempts| > 1 || (|attempts| == 1 && (attempts[0].source != expected || attempts[0].assembled.None?)))
    }

    constructor (expected: Source)
      ensures this.expected == expected && Valid() && attempts == []
    {
      this.expected, calls, failed, attempts := expected, 0, false, [];
    }

    /** A second attempt or a wrong identity never assembles; a failure is remembered. */
    method Assemble(a: Attempt) returns (out: Option<Output>)
      requires Valid()
      modifies this
      ensures Valid() && attempts == old(attempts) + [a]
      ensures out == if old(attempts) == [] && a.source == expected then a.assembled else None
    {
      calls := calls + 1;
      attempts := attempts + [a];
      if calls > 1 || a.source != expected {
        failed := true;
        return None;
      }
      if a.assembled.None? {
        failed := true;
      }
      return a.assembled;
    }

    /** A settlement passes exactly when its output came from one accepted callback, or
        it carries none and the callback never ran. */
    method SettlementFailure(output: Option<Output>) returns (fails: bool)
      requires Valid()
      ensures !fails <==>
              if output.Some? then |attempts| == 1 && attempts[0].source == expected && attempts[0].assembled.Some?
              else attempts == []
    {
      fails := failed || (output.Some? && calls != 1) || (output.None? && calls != 0);
    }
  }

  // ---- The tool boundary -------------------------------------------------------------------

  datatype ToolOutcome = Result(answers: CallId, status: ResultStatus, wellFormed: bool) | ToolFailed

  /** What the run context and the tool do at one call of a batch. */
  datatype ToolScript = ToolScript(cancelled: bool, outcome: ToolOutcome)

  /** One call handed to the tool boundary, with the round whose batch it belongs to. */
  datatype Handed = Handed(round: nat, call: ToolCall)

  class ToolBoundary {
    ghost var history: seq<Handed>

    constructor ()
      ensures history == []
    {
      history := [];
    }

    /** The tool runs: the call is handed over whatever comes back. */
    method ToolEffect(round: nat, call: ToolCall, script: ToolScript) returns (res: ToolOutcome)
      modifies this
      ensures history == old(history) + [Handed(round, call)] && res == script.outcome
    {
      history := history + [Handed(round, call)];
      res := script.outcome;
    }
  }

  function Tagged(round: nat, calls: seq<ToolCall>): (tagged: seq<Handed>)
    ensures |tagged| == |calls| && forall i :: 0 <= i < |calls| ==> tagged[i] == Handed(round, calls[i])
  {
    if |calls| == 0 then [] else Tagged(round, calls[..|calls| - 1]) + [Handed(round, calls[|calls| - 1])]
  }

  /** The calls of one round's batch, in the order they were handed over. */
  function HandedIn(history: seq<Handed>, round: nat): seq<ToolCall> {
    if |history| == 0 then []
    else
      var last := history[|history| - 1];
      HandedIn(history[..|history| - 1], round) + if last.round == round then [last.call] else []
  }

  predicate Answers(t: ToolScript, call: ToolCall) {
    t.outcome.Result? && t.outcome.wellFormed && t.outcome.answers == call.id
  }

  /** The batch goes on past this call. */
  predicate Passes(t: ToolScript, call: ToolCall) {
    !t.cancelled && Answers(t, call) && t.outcome.status != ResultInterrupted
  }

  predicate AllPass(calls: seq<ToolCall>, tools: nat -> ToolScript, n: nat)
    requires n <= |calls|
  {
    forall j :: 0 <= j < n ==> Passes(tools(j), calls[j])
  }

  datatype End = Ended(result: TerminalResult) | Failed | Unfinished

  /** How a batch ends after n of its calls were handed over: it is through; cancellation
      was observed before call n; call n - 1 came back interrupted; or it failed. */
  predicate BatchEnds(out: Output, tools: nat -> ToolScript, n: nat, end: Option<End>) {
    var calls := CallsOfOutput(Some(out));
    n <= |calls| &&
    match end
    case None => n == |calls| && AllPass(calls, tools, n)
    case Some(Ended(r)) =>
      && r == TerminalResult(TerminalInterruption, Some(out), calls[n..], INTERRUPTED_DETAIL)
      && ((n < |calls| && AllPass(calls, tools, n) && tools(n).cancelled)
          || (n > 0 && AllPass(calls, tools, n - 1) && !tools(n - 1).cancelled && Answers(tools(n - 1), calls[n - 1]) &&
              tools(n - 1).outcome.status == ResultInterrupted))
    case Some(Failed) =>
      n > 0 && AllPass(calls, tools, n - 1) && !tools(n - 1).cancelled && !Answers(tools(n - 1), calls[n - 1])
    case Some(Unfinished) => false
  }

  /** One settled batch, dispatched in assembled order until something stops it. */
  method Dispatch(boundary: ToolBoundary, round: nat, out: Output, tools: nat -> ToolScript) returns (end: Option<End>, ghost n: nat)
    modifies boundary
    ensures BatchEnds(out, tools, n, end)
    ensures boundary.history == old(boundary.history) + Tagged(round, CallsOfOutput(Some(out))[..n])
  {
    var calls := CallsOfOutput(Some(out));
    var i := 0;
    while i < |calls|
      invariant 0 <= i <= |calls| && AllPass(calls, tools, i)
      invariant boundary.history == old(boundary.history) + Tagged(round, calls[..i])
    {
      if tools(i).cancelled {
        return Some(Ended(TerminalResult(TerminalInterruption, Some(out), calls[i..], INTERRUPTED_DETAIL))), i;
      }
      var res := boundary.ToolEffect(round, calls[i], tools(i));
      assert calls[..i + 1][..i] == calls[..i];
      if res.ToolFailed? || !res.wellFormed || res.answers != calls[i].id {
        return Some(Failed), i + 1;
      }
      if res.status == ResultInterrupted {
        return Some(Ended(TerminalResult(TerminalInterruption, Some(out), calls[i + 1..], INTERRUPTED_DETAIL))), i + 1;
      }
      i := i + 1;
    }
    assert calls[..i] == calls;
    end, n := None, i;
  }

  /** The script alone decides where a batch ends and how. */
  lemma BatchDetermined(out: Output, tools: nat -> ToolScript, n: nat, end: Option<End>, m: nat, other: Option<End>)
    requires BatchEnds(out, tools, n, end) && BatchEnds(out, tools, m, other)
    ensures n == m && end == other
  {
    var calls := CallsOfOutput(Some(out));
    assert AllPass(calls, tools, if n < m then n else m) || n == m;
  }

  // ---- The loop ------------------------------------------------------------------------------

  datatype RequestScript = Requested | RequestInterrupted | RequestFailed
  datatype ModelScript = Settles(attempts: seq<Attempt>, settlement: Settled) | EffectFailed

  /** What the caller's boundaries and the run context do in one round. */
  datatype Round = Round(cancelledBefore: bool, request: RequestScript, cancelledAfter: bool, effect: ModelScript,
                         cancelledAtEnd: bool, tools: nat -> ToolScript)

  /** The model effect settles: a valid settlement whose output, if any, came from its one
      accepted callback. */
  predicate EffectSettles(expected: Source, effect: ModelScript) {
    && effect.Settles? && SettlementValid(effect.settlement, expected)
    && if effect.settlement.output.Some?
       then |effect.attempts| == 1 && effect.attempts[0].source == expected && effect.attempts[0].assembled.Some?
       else effect.attempts == []
  }

  method RunAttempts(expected: Source, effect: ModelScript) returns (settled: Option<Settled>)
    ensures settled.Some? <==> EffectSettles(expected, effect)
    ensures settled.Some? ==> settled.value == effect.settlement
  {
    if effect.EffectFailed? {
      return None;
    }
    var protocol := new CallbackProtocol(expected);
    var i := 0;
    while i < |effect.attempts|
      invariant 0 <= i <= |effect.attempts|
      invariant protocol.Valid() && protocol.expected == expected && protocol.attempts == effect.attempts[..i] && fresh(protocol)
    {
      var out := protocol.Assemble(effect.attempts[i]);
      i := i + 1;
    }
    assert effect.attempts[..i] == effect.attempts;
    var fails := protocol.SettlementFailure(effect.settlement.output);
    if fails || !SettlementValid(effect.settlement, expected) {
      return None;
    }
    settled := Some(effect.settlement);
  }

  /** The round reaches its model effect. */
  predicate Dispatches(r: Round) {
    !r.cancelledBefore && r.request == Requested && !r.cancelledAfter
  }

  /** The calls a settled round hands to the tool boundary if nothing stops it. */
  function BatchOf(r: Round): seq<ToolCall> {
    if r.effect.Settles? && r.effect.settlement.disposition == Ready then CallsOfOutput(r.effect.settlement.output) else []
  }

  /** The loop starts another round after this one. */
  predicate GoesOn(expected: Source, r: Round) {
    && Dispatches(r) && EffectSettles(expected, r.effect)
    && (r.effect.settlement.disposition == Continue ||
        (r.effect.settlement.disposition == Ready && BatchOf(r) != [] && AllPass(BatchOf(r), r.tools, |BatchOf(r)|)))
  }

  /** The last settled output before round n. */
  function LastOf(rounds: seq<Round>, n: nat): Option<Output>
    requires n <= |rounds|
  {
    if n == 0 || rounds[n - 1].effect.EffectFailed? then None else rounds[n - 1].effect.settlement.output
  }

  /** A completed last settlement survives a checkpoint, an errored one is dropped. */
  function Checkpoint(last: Option<Output>): TerminalResult {
    TerminalResult(TerminalInterruption, if last.Some? && last.value.status != Completed then None else last, [], INTERRUPTED_DETAIL)
  }

  /** The terminal a settlement's own row names, before any tool runs. */
  function RowTerminal(r: Round): Option<TerminalResult>
    requires r.effect.Settles?
  {
    var s := r.effect.settlement;
    match s.disposition
    case Fail => Some(TerminalResult(TerminalFailure, s.output, [], s.detail))
    case Interrupt =>
      Some(TerminalResult(TerminalInterruption, s.output,
                          if s.output.Some? && s.output.value.status == Completed then CallsOfOutput(s.output) else [], s.detail))
    case Ready =>
      if CallsOfOutput(s.output) != [] then None
      else if r.cancelledAtEnd then Some(TerminalResult(TerminalInterruption, s.output, [], INTERRUPTED_DETAIL))
      else Some(TerminalResult(TerminalSuccess, s.output, [], ""))
    case Continue => None
  }

  /** Why the run ends in this round, after n of its calls were handed over. */
  predicate RoundEnds(expected: Source, last: Option<Output>, r: Round, n: nat, end: End) {
    if r.cancelledBefore || r.request == RequestInterrupted || (r.request == Requested && r.cancelledAfter) then
      n == 0 && end == Ended(Checkpoint(last))
    else if r.request == RequestFailed || !EffectSettles(expected, r.effect) then
      n == 0 && end == Failed
    else if RowTerminal(r).Some? then
      n == 0 && end == Ended(RowTerminal(r).value)
    else
      BatchOf(r) != [] && BatchEnds(r.effect.settlement.output.value, r.tools, n, Some(end))
  }

  /** Everything the first n rounds handed to the tool boundary. */
  function HandedBefore(rounds: seq<Round>, n: nat): seq<Handed>
    requires n <= |rounds|
  {
    if n == 0 then [] else HandedBefore(rounds, n - 1) + Tagged(n - 1, BatchOf(rounds[n - 1]))
  }

  /** A whole run: the rounds before `stop` went on, the round at `stop` ended it after
      handing over n of its calls, or the script ended first. */
  predicate RunEnds(expected: Source, rounds: seq<Round>, stop: nat, n: nat, end: End) {
    && stop <= |rounds| && (forall k :: 0 <= k < stop ==> GoesOn(expected, rounds[k]))
    && if stop == |rounds| then n == 0 && end == Unfinished
       else n <= |BatchOf(rounds[stop])| && RoundEnds(expected, LastOf(rounds, stop), rounds[stop], n, end)
  }

  function HandedBy(rounds: seq<Round>, stop: nat, n: nat): seq<Handed>
    requires stop <= |rounds| && (if stop < |rounds| then n <= |BatchOf(rounds[stop])| else n == 0)
  {
    HandedBefore(rounds, stop) + if stop < |rounds| then Tagged(stop, BatchOf(rounds[stop])[..n]) else []
  }

  /** The checkpoint terminal. */
  method RetainedInterruption(last: Option<Output>) returns (end: End)
    ensures end == Ended(Checkpoint(last))
  {
    var out := last;
    if last.Some? && last.value.status != Completed {
      out := None;
    }
    end := Ended(TerminalResult(TerminalInterruption, out, [], INTERRUPTED_DETAIL));
  }

  /** One round: it goes on, or it ends the run after handing over n calls of its batch. */
  method RunRound(boundary: ToolBoundary, expected: Source, round: nat, last: Option<Output>, r: Round)
    returns (end: Option<End>, ghost n: nat)
    modifies boundary
    ensures n <= |BatchOf(r)| && boundary.history == old(boundary.history) + Tagged(round, BatchOf(r)[..n])
    ensures end.Some? ==> RoundEnds(expected, last, r, n, end.value)
    ensures end.None? ==> GoesOn(expected, r) && n == |BatchOf(r)|
  {
    hide SettlementValid, BatchEnds, Tagged;
    n := 0;
    NothingTagged(round, BatchOf(r));
    if r.cancelledBefore {
      var out := RetainedInterruption(last);
      return Some(out), 0;
    }
    match r.request {
      case RequestFailed =>
        return Some(Failed), 0;
      case RequestInterrupted =>
        var out := RetainedInterruption(last);
        return Some(out), 0;
      case Requested =>
    }
    if r.cancelledAfter {
      var out := RetainedInterruption(last);
      return Some(out), 0;
    }
    var settled := RunAttempts(expected, r.effect);
    if settled.None? {
      return Some(Failed), 0;
    }
    var s := settled.value;
    match s.disposition {
      case Fail =>
        return Some(Ended(TerminalResult(TerminalFailure, s.output, [], s.detail))), 0;
      case Interrupt =>
        var unstarted := if s.output.Some? && s.output.value.status == Completed then CallsOfOutput(s.output) else [];
        return Some(Ended(TerminalResult(TerminalInterruption, s.output, unstarted, s.detail))), 0;
      case Continue =>
        return None, 0;
      case Ready =>
        ReadyHasOutput(expected, r.effect);
        if CallsOfOutput(s.output) == [] {
          if r.cancelledAtEnd {
            return Some(Ended(TerminalResult(TerminalInterruption, s.output, [], INTERRUPTED_DETAIL))), 0;
          }
          return Some(Ended(TerminalResult(TerminalSuccess, s.output, [], ""))), 0;
        }
        end, n := Dispatch(boundary, round, s.output.value, r.tools);
        BatchThrough(s.output.value, r.tools, n, end);
    }
  }

  lemma BatchThrough(out: Output, tools: nat -> ToolScript, n: nat, end: Option<End>)
    requires BatchEnds(out, tools, n, end)
    ensures n <= |CallsOfOutput(Some(out))|
    ensures end.None? ==> n == |CallsOfOutput(Some(out))| && AllPass(CallsOfOutput(Some(out)), tools, n)
  {
  }

  lemma NothingTagged(round: nat, calls: seq<ToolCall>)
    ensures Tagged(round, calls[..0]) == []
  {
  }

  /** For all request, model and tool behaviours: the run ends where and how its script
      says, having handed over exactly the calls of the batches it went through. */
  method Run(boundary: ToolBoundary, expected: Source, rounds: seq<Round>) returns (end: End, ghost stop: nat, ghost n: nat)
    requires boundary.history == []
    modifies boundary
    ensures RunEnds(expected, rounds, stop, n, end)
    ensures boundary.history == HandedBy(rounds, stop, n)
  {
    hide GoesOn, RoundEnds, BatchOf, Tagged;
    var last: Option<Output> := None;
    var k := 0;
    while k < |rounds|
      invariant 0 <= k <= |rounds| && last == LastOf(rounds, k)
      invariant forall x :: 0 <= x < k ==> GoesOn(expected, rounds[x])
      invariant boundary.history == HandedBefore(rounds, k)
    {
      var ended;
      ended, n := RunRound(boundary, expected, k, last, rounds[k]);
      if ended.Some? {
        return ended.value, k, n;
      }
      assert BatchOf(rounds[k])[..n] == BatchOf(rounds[k]);
      last := if rounds[k].effect.EffectFailed? then None else rounds[k].effect.settlement.output;
      k := k + 1;
    }
    end, stop, n := Unfinished, k, 0;
  }

  lemma ReadyHasOutput(expected: Source, effect: ModelScript)
    requires EffectSettles(expected, effect) && effect.settlement.disposition == Ready
    ensures effect.settlement.output.Some?
  {
  }

  // ---- The tables read the other way -----------------------------------------------------------

  /** The disposition table by what the settlement carries. */
  lemma DispositionTable(s: Settled)
    ensures RowValid(s) <==>
              && (s.detail == "" <==> s.disposition in {Ready, Continue})
              && (s.output.None? ==> s.disposition in {Fail, Interrupt})
              && (s.output.Some? ==>
                    match s.output.value.status
                    case Completed =>
                      s.disposition in {Ready, Interrupt} ||
                      (s.disposition == Continue && (s.output.value.message.Some? ==> s.output.value.message.value.calls == []))
                    case Errored =>
                      s.disposition == Fail ||
                      (s.disposition == Continue && s.output.value.message.Some? && s.output.value.message.value.payload)
                    case Interrupted => s.disposition == Interrupt)
  {
  }

  predicate Ends(end: End, status: TerminalStatus, last: Option<Output>, unstarted: seq<ToolCall>, detail: Text) {
    end.Ended? && end.result.status == status && end.result.lastOutput == last && end.result.unstarted == unstarted &&
    end.result.detail == detail
  }

  /** What the terminal of a round that reached no settlement says: a checkpoint retains the
      last completed output and no other; a failed boundary leaves no terminal. */
  lemma EndsBeforeSettlement(expected: Source, last: Option<Output>, r: Round, n: nat, end: End)
    requires RoundEnds(expected, last, r, n, end)
    ensures !r.cancelledBefore && r.request == RequestFailed ==> n == 0 && end == Failed
    ensures !r.cancelledBefore && r.request == Requested && !r.cancelledAfter && !EffectSettles(expected, r.effect) ==>
              n == 0 && end == Failed
    ensures r.cancelledBefore || r.request == RequestInterrupted || (r.request == Requested && r.cancelledAfter) ==>
              n == 0 && Ends(end, TerminalInterruption, if last.Some? && last.value.status == Completed then last else None, [],
                             "agent interrupted")
  {
  }

  /** What the terminal of a settled round says, disposition by disposition. */
  lemma EndsAfterSettlement(expected: Source, last: Option<Output>, r: Round, n: nat, end: End)
    requires RoundEnds(expected, last, r, n, end) && Dispatches(r) && EffectSettles(expected, r.effect)
    ensures var s := r.effect.settlement;
            var calls := if s.output.Some? && s.output.value.message.Some? then s.output.value.message.value.calls else [];
            match s.disposition
            case Fail => n == 0 && Ends(end, TerminalFailure, s.output, [], s.detail)
            case Interrupt =>
              n == 0 && Ends(end, TerminalInterruption, s.output,
                             if s.output.Some? && s.output.value.status == Completed then calls else [], s.detail)
            case Continue => false
            case Ready =>
              if calls == [] then
                n == 0 && if r.cancelledAtEnd then Ends(end, TerminalInterruption, s.output, [], "agent interrupted")
                          else Ends(end, TerminalSuccess, s.output, [], "")
              else
                n <= |calls| && (end == Failed || Ends(end, TerminalInterruption, s.output, calls[n..], "agent interrupted"))
  {
  }

  // ---- What a run's end says --------------------------------------------------------------------

  /** The behaviours of the boundaries alone decide where a run ends, how, and what it
      handed over. */
  lemma RunDetermined(expected: Source, rounds: seq<Round>, stop: nat, n: nat, end: End, stop': nat, n': nat, end': End)
    requires RunEnds(expected, rounds, stop, n, end) && RunEnds(expected, rounds, stop', n', end')
    ensures stop == stop' && n == n' && end == end'
  {
    hide EffectSettles, BatchEnds;
    if stop < stop' {
      GoingOnDoesNotEnd(expected, LastOf(rounds, stop), rounds[stop], n, end);
    } else if stop' < stop {
      GoingOnDoesNotEnd(expected, LastOf(rounds, stop'), rounds[stop'], n', end');
    } else if stop < |rounds| {
      EndDetermined(expected, LastOf(rounds, stop), rounds[stop], n, end, n', end');
    }
  }

  lemma EndDetermined(expected: Source, last: Option<Output>, r: Round, n: nat, end: End, n': nat, end': End)
    requires RoundEnds(expected, last, r, n, end) && RoundEnds(expected, last, r, n', end')
    ensures n == n' && end == end'
  {
    hide EffectSettles, BatchEnds;
    if r.effect.Settles? && RowTerminal(r).None? && BatchOf(r) != [] && r.effect.settlement.output.Some? {
      if BatchEnds(r.effect.settlement.output.value, r.tools, n, Some(end)) &&
         BatchEnds(r.effect.settlement.output.value, r.tools, n', Some(end')) {
        BatchDetermined(r.effect.settlement.output.value, r.tools, n, Some(end), n', Some(end'));
      }
    }
  }

  lemma GoingOnDoesNotEnd(expected: Source, last: Option<Output>, r: Round, n: nat, end: End)
    requires GoesOn(expected, r)
    ensures !RoundEnds(expected, last, r, n, end)
  {
    if RoundEnds(expected, last, r, n, end) {
      BatchDetermined(r.effect.settlement.output.value, r.tools, n, Some(end), |BatchOf(r)|, None);
    }
  }

  /** An output a round left behind: settled, so valid, and never an interrupted one. */
  lemma LastIsSettled(expected: Source, rounds: seq<Round>, stop: nat)
    requires stop <= |rounds| && (forall k :: 0 <= k < stop ==> GoesOn(expected, rounds[k])) && LastOf(rounds, stop).Some?
    ensures var last := LastOf(rounds, stop);
            ValidOutput(last.value) && UniqueIds(CallsOfOutput(last)) && last.value.status != Interrupted
    ensures LastOf(rounds, stop).value.status == Completed ==> CallsOfOutput(LastOf(rounds, stop)) == BatchOf(rounds[stop - 1])
  {
    assert GoesOn(expected, rounds[stop - 1]);
  }

  /** For all behaviours, every terminal a run builds is valid. */
  lemma TerminalsValid(expected: Source, rounds: seq<Round>, stop: nat, n: nat, end: End)
    requires RunEnds(expected, rounds, stop, n, end) && end.Ended?
    ensures TerminalValid(end.result)
  {
    hide UnstartedValid, IndexOf, GoesOn, AllPass;
    var r := rounds[stop];
    if LastOf(rounds, stop).Some? {
      LastIsSettled(expected, rounds, stop);
    }
    if EffectSettles(expected, r.effect) && r.effect.settlement.output.Some? && r.effect.settlement.output.value.status == Completed {
      SuffixUnstarted(r.effect.settlement.output.value, 0);
      assert CallsOfOutput(r.effect.settlement.output)[0..] == CallsOfOutput(r.effect.settlement.output);
      if n <= |CallsOfOutput(r.effect.settlement.output)| {
        SuffixUnstarted(r.effect.settlement.output.value, n);
      }
    }
    EmptyUnstarted(end.result.lastOutput);
  }

  lemma EmptyUnstarted(out: Option<Output>)
    ensures UnstartedValid([], out)
  {
  }

  lemma {:induction false} HandedConcat(a: seq<Handed>, b: seq<Handed>, round: nat)
    ensures HandedIn(a + b, round) == HandedIn(a, round) + HandedIn(b, round)
  {
    if |b| == 0 {
      assert a + b == a;
    } else {
      HandedConcat(a, b[..|b| - 1], round);
      assert (a + b)[..|a + b| - 1] == a + b[..|b| - 1];
    }
  }

  lemma {:induction false} HandedTagged(tag: nat, calls: seq<ToolCall>, round: nat)
    ensures HandedIn(Tagged(tag, calls), round) == if tag == round then calls else []
  {
    if |calls| > 0 {
      var n := |calls| - 1;
      HandedTagged(tag, calls[..n], round);
      assert (Tagged(tag, calls[..n]) + [Handed(tag, calls[n])])[..n] == Tagged(tag, calls[..n]);
      assert calls == calls[..n] + [calls[n]];
    }
  }

  lemma NothingHanded(round: nat)
    ensures HandedIn([], round) == []
  {
  }

  lemma {:induction false} HandedBeforeIn(rounds: seq<Round>, n: nat, round: nat)
    requires n <= |rounds|
    ensures HandedIn(HandedBefore(rounds, n), round) == if round < n then BatchOf(rounds[round]) else []
  {
    hide BatchOf, Tagged, HandedIn;
    if n == 0 {
      NothingHanded(round);
    } else {
      HandedBeforeIn(rounds, n - 1, round);
      HandedConcat(HandedBefore(rounds, n - 1), Tagged(n - 1, BatchOf(rounds[n - 1])), round);
      HandedTagged(n - 1, BatchOf(rounds[n - 1]), round);
    }
  }

  /** Each batch a run went through was handed over whole and in order; the batch it ended
      in, up to where it ended; no other. */
  lemma HandedPerBatch(rounds: seq<Round>, stop: nat, n: nat, round: nat)
    requires stop <= |rounds| && (if stop < |rounds| then n <= |BatchOf(rounds[stop])| else n == 0)
    ensures HandedIn(HandedBy(rounds, stop, n), round)
            == if round < stop then BatchOf(rounds[round])
               else if round == stop < |rounds| then BatchOf(rounds[stop])[..n]
               else []
  {
    hide BatchOf, HandedBefore, HandedIn, Tagged;
    HandedBeforeIn(rounds, stop, round);
    if stop < |rounds| {
      HandedConcat(HandedBefore(rounds, stop), Tagged(stop, BatchOf(rounds[stop])[..n]), round);
      HandedTagged(stop, BatchOf(rounds[stop])[..n], round);
    } else {
      HandedConcat(HandedBefore(rounds, stop), [], round);
      NothingHanded(round);
    }
  }

  predicate HandedDistinct(history: seq<Handed>) {
    forall i, j :: 0 <= i < j < |history| ==> !(history[i].round == history[j].round && history[i].call.id == history[j].call.id)
  }

  lemma {:induction false} HandedBeforeDistinct(expected: Source, rounds: seq<Round>, n: nat)
    requires n <= |rounds| && forall k :: 0 <= k < n ==> GoesOn(expected, rounds[k])
    ensures HandedDistinct(HandedBefore(rounds, n))
    ensures forall i :: 0 <= i < |HandedBefore(rounds, n)| ==> HandedBefore(rounds, n)[i].round < n
  {
    hide GoesOn, BatchOf, HandedDistinct, UniqueIds, Tagged;
    if n == 0 {
      NothingTwice();
    } else {
      HandedBeforeDistinct(expected, rounds, n - 1);
      BatchUnique(expected, rounds[n - 1]);
      BatchJoins(HandedBefore(rounds, n - 1), n - 1, BatchOf(rounds[n - 1]));
    }
  }

  lemma NothingTwice()
    ensures HandedDistinct([])
  {
  }

  /** A later batch of distinct calls keeps the history distinct. */
  lemma BatchJoins(history: seq<Handed>, round: nat, calls: seq<ToolCall>)
    requires HandedDistinct(history) && UniqueIds(calls) && forall i :: 0 <= i < |history| ==> history[i].round < round
    ensures HandedDistinct(history + Tagged(round, calls))
    ensures forall i :: 0 <= i < |history + Tagged(round, calls)| ==> (history + Tagged(round, calls))[i].round <= round
  {
    var tagged := Tagged(round, calls);
    hide Tagged;
    forall i, j | 0 <= i < j < |history + tagged|
      ensures !((history + tagged)[i].round == (history + tagged)[j].round && (history + tagged)[i].call.id == (history + tagged)[j].call.id)
    {
      if i >= |history| {
        assert calls[i - |history|].id != calls[j - |history|].id;
      }
    }
  }

  lemma BatchUnique(expected: Source, r: Round)
    requires GoesOn(expected, r) || (r.effect.Settles? && EffectSettles(expected, r.effect))
    ensures UniqueIds(BatchOf(r))
  {
  }

  /** No call of a batch is handed over twice. */
  lemma HandedOnce(expected: Source, rounds: seq<Round>, stop: nat, n: nat, end: End)
    requires RunEnds(expected, rounds, stop, n, end)
    ensures HandedDistinct(HandedBy(rounds, stop, n))
  {
    hide GoesOn, BatchEnds, SettlementValid;
    HandedBeforeDistinct(expected, rounds, stop);
    if stop < |rounds| && n > 0 {
      assert EffectSettles(expected, rounds[stop].effect);
      assert UniqueIds(BatchOf(rounds[stop])) by { BatchUnique(expected, rounds[stop]); }
    }
  }

  /** On an ended run whose terminal carries a completed output, the calls of that output
      handed over, then its unstarted calls, are exactly its calls in order. */
  lemma TerminalAccounts(expected: Source, rounds: seq<Round>, stop: nat, n: nat, end: End) returns (round: nat)
    requires RunEnds(expected, rounds, stop, n, end) && end.Ended?
    requires end.result.lastOutput.Some? && end.result.lastOutput.value.status == Completed
    ensures round <= stop < |rounds| && rounds[round].effect.Settles? && rounds[round].effect.settlement.output == end.result.lastOutput
    ensures HandedIn(HandedBy(rounds, stop, n), round) + end.result.unstarted == CallsOfOutput(end.result.lastOutput)
  {
    hide SettlementValid, AllPass, GoesOn, HandedBy;
    var r := rounds[stop];
    if Dispatches(r) {
      round := stop;
    } else {
      round := stop - 1;
      LastIsSettled(expected, rounds, stop);
    }
    HandedPerBatch(rounds, stop, n, round);
    if round == stop {
      EndsAccounted(expected, LastOf(rounds, stop), r, n, end);
    }
  }

  lemma EndsAccounted(expected: Source, last: Option<Output>, r: Round, n: nat, end: End)
    requires Dispatches(r) && RoundEnds(expected, last, r, n, end) && end.Ended? && n <= |BatchOf(r)|
    requires end.result.lastOutput.Some? && end.result.lastOutput.value.status == Completed
    ensures r.effect.Settles? && r.effect.settlement.output == end.result.lastOutput
    ensures BatchOf(r)[..n] + end.result.unstarted == CallsOfOutput(end.result.lastOutput)
  {
    hide ValidOutput, UniqueIds, AllPass;
    var calls := CallsOfOutput(end.result.lastOutput);
    assert calls[..n] + calls[n..] == calls || n > |calls|;
    assert BatchOf(r)[..0] == [];
    assert [] + end.result.unstarted == end.result.unstarted;
  }

  /** So no call is both handed over and unstarted. */
  lemma StartedOrUnstarted(expected: Source, rounds: seq<Round>, stop: nat, n: nat, end: End, round: nat, c: ToolCall, u: ToolCall)
    requires RunEnds(expected, rounds, stop, n, end) && end.Ended?
    requires end.result.lastOutput.Some? && end.result.lastOutput.value.status == Completed
    requires HandedIn(HandedBy(rounds, stop, n), round) + end.result.unstarted == CallsOfOutput(end.result.lastOutput)
    requires c in HandedIn(HandedBy(rounds, stop, n), round) && u in end.result.unstarted
    ensures c.id != u.id
  {
    hide UnstartedValid, RoundEnds, GoesOn, HandedIn, HandedBy, BatchOf, LastOf;
    var handed, rest := HandedIn(HandedBy(rounds, stop, n), round), end.result.unstarted;
    TerminalsValid(expected, rounds, stop, n, end);
    var i :| 0 <= i < |handed| && handed[i] == c;
    var j :| 0 <= j < |rest| && rest[j] == u;
    assert (handed + rest)[i] == c && (handed + rest)[|handed| + j] == u;
  }
}
