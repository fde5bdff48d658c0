/**
 * What leaves a run, and what is kept for the next one. A run that stops the
 * interpreter, or does not get as far as the script, gives back the previous data and
 * no requests; so over any sequence of calls for one particle and peer the ids of the
 * requests the host sees go up and are never used twice. The exception are the internal
 * failures while the outcome is made, which give back empty data.
 */
module Avm {
  import opened Wrappers
  import opened Json
  import opened Errors
  import opened Ast
  import opened State
  import opened Semantics
  import opened Progress
  import opened Context
  import Interpreter

  /** Empty data stands for data of no run. */
  datatype Data = NoData | Envelope(lastCallRequestId: nat, trace: seq<TraceEntry>)

  function LastId(data: Data): nat {
    match data
    case NoData => 0
    case Envelope(id, _) => id
  }

  /** Where the run of a particle goes wrong outside of its script. */
  datatype Fault = NoFault | InPreparation | InSigning | InFarewell

  datatype Particle = Particle(script: Instr, names: seq<string>, initPeer: string, peer: string, replies: seq<Reply>, fault: Fault)

  datatype InterpreterOutcome = InterpreterOutcome(data: Data, callRequests: map<nat, seq<JValue>>)

  /** The previous data and no requests. */
  function FromUncatchableError(previous: Data): InterpreterOutcome {
    InterpreterOutcome(previous, map[])
  }

  /** The state of the run, unless streams cannot be compactified or the result cannot be signed. */
  function PopulateOutcome(s: Ctx, fault: Fault): InterpreterOutcome {
    if fault.InFarewell? then InterpreterOutcome(NoData, map[])
    else InterpreterOutcome(Envelope(s.lastCallId, s.trace), s.requests)
  }

  ghost predicate Parses(p: Particle) {
    Scoped(p.script, [], p.names)
  }

  ghost function ScriptRun(p: Particle, previous: Data): Run
    requires Parses(p)
  {
    Eval(p.script, [], p.names, Initial(p.initPeer, p.peer, p.replies, LastId(previous)), false)
  }

  ghost function RunOutcome(p: Particle, previous: Data): InterpreterOutcome {
    if p.fault.InPreparation? || !Parses(p) then FromUncatchableError(previous)
    else
      var r := ScriptRun(p, previous);
      if p.fault.InSigning? || r.Aborted() then FromUncatchableError(previous) else PopulateOutcome(r.s, p.fault)
  }

  method ExecuteAir(p: Particle, previous: Data, parsed: bool) returns (outcome: InterpreterOutcome)
    requires parsed <==> Parses(p)
    ensures outcome == RunOutcome(p, previous)
  {
    if p.fault.InPreparation? || !parsed {
      return FromUncatchableError(previous);
    }
    var ctx := new ExecutionCtx(p.initPeer, p.peer, p.replies, match previous case NoData => 0 case Envelope(id, _) => id);
    ghost var s := ctx.View();
    var result := Interpreter.Execute(p.script, ctx, [], p.names);
    if p.fault.InSigning? || (result.Err? && result.error.Uncatchable?) {
      return FromUncatchableError(previous);
    }
    if p.fault.InFarewell? {
      return InterpreterOutcome(NoData, map[]);
    }
    return InterpreterOutcome(Envelope(ctx.lastCallRequestId, ctx.traceHandler.trace), ctx.callRequests);
  }

  /** The data kept for every particle and peer. */
  class AVM {
    var dataStore: map<(string, string), Data>

    constructor ()
      ensures dataStore == map[]
    {
      dataStore := map[];
    }

    function Kept(particleId: string, peerId: string): Data
      reads this
    {
      if (particleId, peerId) in dataStore then dataStore[(particleId, peerId)] else NoData
    }

    /** Reads the previous data, runs the script and persists the data of the outcome, whatever that is. */
    method Call(particleId: string, p: Particle, parsed: bool) returns (outcome: InterpreterOutcome)
      requires parsed <==> Parses(p)
      modifies this
      ensures outcome == RunOutcome(p, old(Kept(particleId, p.peer)))
      ensures dataStore == old(dataStore)[(particleId, p.peer) := outcome.data]
    {
      var previous := Kept(particleId, p.peer);
      outcome := ExecuteAir(p, previous, parsed);
      dataStore := dataStore[(particleId, p.peer) := outcome.data];
    }
  }

  // ---- ids of one run ----

  lemma NextIdWithoutWrap(last: nat)
    requires last + 1 < 0x1_0000_0000
    ensures NextCallId(last) == last + 1
  {
  }

  /** Without wrap-around ids count up by one. */
  lemma {:induction false} CountedUp(last: nat, ids: seq<nat>, k: nat)
    requires Counted(last, ids) && last + |ids| < 0x1_0000_0000 && k < |ids|
    ensures ids[k] == last + 1 + k
  {
    if k == 0 {
      NextIdWithoutWrap(last);
    } else {
      CountedUp(last, ids, k - 1);
      NextIdWithoutWrap(ids[k - 1]);
    }
    assert ids[k] == NextCallId(Previous(last, ids, k));
  }

  lemma ChainEnds(last: nat, ids: seq<nat>, end: nat)
    requires Chain(last, ids, end) && last + |ids| < 0x1_0000_0000
    ensures end == last + |ids|
    ensures forall id :: id in ids <==> last < id <= end
  {
    if ids != [] {
      forall k | 0 <= k < |ids|
        ensures ids[k] == last + 1 + k
      {
        CountedUp(last, ids, k);
      }
    }
    forall id: nat | last < id <= end
      ensures id in ids
    {
      assert ids[id - last - 1] == id;
    }
  }

  /** The ids are 32-bit numbers; this run does not get to the end of them. */
  ghost predicate IdsLeft(p: Particle, previous: Data) {
    Parses(p) ==> LastId(previous) + |Ids(ScriptRun(p, previous).s.trace)| < 0x1_0000_0000
  }

  /** The ids exposed by a run are exactly those between the last id before and the last id after it. */
  lemma ExposedIds(p: Particle, previous: Data)
    requires !p.fault.InFarewell? && IdsLeft(p, previous)
    ensures var outcome := RunOutcome(p, previous);
      && LastId(previous) <= LastId(outcome.data)
      && forall id: nat {:trigger id in outcome.callRequests} ::
           id in outcome.callRequests <==> LastId(previous) < id <= LastId(outcome.data)
  {
    if Parses(p) && !p.fault.InPreparation? {
      var s := Initial(p.initPeer, p.peer, p.replies, LastId(previous));
      var r := ScriptRun(p, previous);
      EvalGrows(p.script, [], p.names, s, false);
      assert r.s.trace[|s.trace|..] == r.s.trace;
      ChainEnds(s.lastCallId, Ids(r.s.trace), r.s.lastCallId);
    }
  }

  lemma {:induction false} IdsAreRequested(trace: seq<TraceEntry>, id: nat)
    ensures id in Ids(trace) <==> CallRequested(id) in trace
  {
    if trace != [] {
      var n := |trace| - 1;
      IdsAreRequested(trace[..n], id);
      assert trace == trace[..n] + [trace[n]];
    }
  }

  ghost predicate GoesWrong(p: Particle, previous: Data) {
    p.fault.InPreparation? || p.fault.InSigning? || !Parses(p) || ScriptRun(p, previous).Aborted()
  }

  /**
   * The new data is the trace that the script, run with the replies at hand, left and
   * the id of its last request. The trace and what the host gets name the same
   * requests, and the host gets the arguments the script left.
   */
  lemma DataIsTheTrace(p: Particle, previous: Data, id: nat)
    requires !GoesWrong(p, previous) && p.fault.NoFault?
    ensures var outcome := RunOutcome(p, previous);
      var s := Eval(p.script, [], p.names, Initial(p.initPeer, p.peer, p.replies, LastId(previous)), false).s;
      && outcome.data.Envelope? && outcome.data.trace == s.trace && outcome.data.lastCallRequestId == s.lastCallId
      && (CallRequested(id) in outcome.data.trace <==> id in outcome.callRequests)
      && (id in outcome.callRequests ==> id in s.requests && outcome.callRequests[id] == s.requests[id])
  {
    var s, r := Initial(p.initPeer, p.peer, p.replies, LastId(previous)), ScriptRun(p, previous);
    EvalGrows(p.script, [], p.names, s, false);
    assert r.s.trace[|s.trace|..] == r.s.trace;
    IdsAreRequested(r.s.trace, id);
  }

  /** A run that is aborted exposes nothing and leaves the data as it was. */
  lemma AbortedRunsLeaveNoTrace(p: Particle, previous: Data)
    requires GoesWrong(p, previous)
    ensures RunOutcome(p, previous) == InterpreterOutcome(previous, map[])
  {
  }

  // ---- sequences of calls ----

  /** The data before the k-th call of a sequence for one particle and peer. */
  ghost function DataBefore(first: Data, ps: seq<Particle>, k: nat): Data
    requires k <= |ps|
  {
    if k == 0 then first else RunOutcome(ps[k - 1], DataBefore(first, ps, k - 1)).data
  }

  ghost function RequestsOf(first: Data, ps: seq<Particle>, k: nat): map<nat, seq<JValue>>
    requires k < |ps|
  {
    RunOutcome(ps[k], DataBefore(first, ps, k)).callRequests
  }

  /** No call ends in an internal failure, and ids do not run out. */
  ghost predicate Regular(first: Data, ps: seq<Particle>) {
    forall k {:trigger RegularCall(first, ps, k)} | 0 <= k < |ps| :: RegularCall(first, ps, k)
  }

  ghost predicate RegularCall(first: Data, ps: seq<Particle>, k: nat)
    requires k < |ps|
  {
    !ps[k].fault.InFarewell? && IdsLeft(ps[k], DataBefore(first, ps, k))
  }

  lemma StepIds(first: Data, ps: seq<Particle>, k: nat, id: nat)
    requires Regular(first, ps) && k < |ps|
    ensures LastId(DataBefore(first, ps, k)) <= LastId(DataBefore(first, ps, k + 1))
    ensures id in RequestsOf(first, ps, k) <==> LastId(DataBefore(first, ps, k)) < id <= LastId(DataBefore(first, ps, k + 1))
  {
    assert RegularCall(first, ps, k);
    ExposedIds(ps[k], DataBefore(first, ps, k));
    assert DataBefore(first, ps, k + 1) == RunOutcome(ps[k], DataBefore(first, ps, k)).data;
  }

  lemma {:induction false} LastIdGrows(first: Data, ps: seq<Particle>, j: nat, k: nat)
    requires Regular(first, ps) && j <= k <= |ps|
    ensures LastId(DataBefore(first, ps, j)) <= LastId(DataBefore(first, ps, k))
    decreases k
  {
    if j < k {
      var n := k - 1;
      LastIdGrows(first, ps, j, n);
      StepIds(first, ps, n, 0);
      assert n + 1 == k;
    }
  }

  /** Ids of later calls are greater than those of earlier ones; so no id is ever used twice. */
  lemma IdsNeverReused(first: Data, ps: seq<Particle>, j: nat, k: nat, a: nat, b: nat)
    requires Regular(first, ps) && j < k < |ps|
    requires a in RequestsOf(first, ps, j) && b in RequestsOf(first, ps, k)
    ensures a < b
  {
    StepIds(first, ps, j, a);
    LastIdGrows(first, ps, j + 1, k);
    StepIds(first, ps, k, b);
  }

  /** After an internal failure counting begins anew: the next request has the first id again. */
  lemma FarewellFailureForgetsIds(p: Particle, previous: Data, next: Particle)
    requires p.fault.InFarewell? && Parses(p) && !ScriptRun(p, previous).Aborted()
    requires next.fault.NoFault? && Parses(next) && IdsLeft(next, NoData)
    ensures RunOutcome(p, previous) == InterpreterOutcome(NoData, map[])
    ensures var again := RunOutcome(next, RunOutcome(p, previous).data); again.callRequests != map[] ==> 1 in again.callRequests
  {
    ExposedIds(next, NoData);
    var again := RunOutcome(next, NoData);
    if again.callRequests != map[] {
      var id :| id in again.callRequests;
    }
  }
}
