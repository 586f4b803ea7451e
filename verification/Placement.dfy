/** Load balancers placing calls on pure runners: any number of calls, runners
    and attempts, with lost messages, failed sends and lost acknowledgements.
    An attempt pairs one `TryExec` with the engagement it opens on a runner. */
module Placement {
  import opened Words
  import opened SeqSum
  import E = Engagement

  /** Where `TryExec` is.  `Returned(placed)` is its first result. */
  datatype ClientPc = Engaging | AwaitAck | SendingData | AwaitFinish | Returned(placed: bool)

  datatype Attempt = Attempt(
    call: nat,
    runner: nat,
    client: ClientPc,
    dataSent: bool,               // a data frame was handed to the stream
    toRunner: seq<E.ClientMsg>,   // in flight, oldest first
    eng: E.State
  )

  /** Where `PlaceCall` is: between attempts, inside one, or returned.
      `cur` is the latest attempt, -1 before the first. */
  datatype PlacerPc = Choosing | Trying | Finished
  datatype Placer = Placer(pc: PlacerPc, cur: int)

  /** `pureRunnerCapacityManager`. */
  datatype Runner = Runner(total: nat, committed: nat)

  datatype State = State(runners: seq<Runner>, calls: seq<Placer>, attempts: seq<Attempt>)

  datatype ClientStep =
    | FailsLocally                              // runner closed, or the model cannot be encoded
    | EngageFails
    | SendTry(ok: bool, delivered: bool)
    | RecvFails
    | RecvFirst
    | SendData(eof: bool, ok: bool, delivered: bool)
    | Finish

  datatype Step =
    | AddRunner(units: nat)
    | AddCall
    | Attempting(c: nat, r: nat)
    | Collect(c: nat)
    | GiveUp(c: nat)
    | Client(a: nat, cs: ClientStep)
    | Lose(a: nat, kept: nat)
    | RunnerMoves(a: nat, es: E.Step)

  // -------------------------------------------------------------------- client

  predicate ClientEnabled(t: Attempt, step: ClientStep) {
    match step
    case FailsLocally => t.client.Engaging?
    case EngageFails => t.client.Engaging?
    case SendTry(_, _) => t.client.Engaging?
    case RecvFails => t.client.AwaitAck?
    case RecvFirst => t.client.AwaitAck? && |t.eng.wire| > 0
    case SendData(_, _, _) => t.client.SendingData?
    case Finish => t.client.AwaitFinish?
  }

  /** `TryExec`, with the two results it can give. */
  function ApplyClient(t: Attempt, step: ClientStep): Attempt
    requires ClientEnabled(t, step)
  {
    match step
    case FailsLocally => t.(client := Returned(true))
    case EngageFails => t.(client := Returned(false))
    case SendTry(ok, delivered) =>
      t.(client := if ok then AwaitAck else Returned(false),
         toRunner := if delivered then t.toRunner + [E.Try] else t.toRunner)
    case RecvFails => t.(client := Returned(false))
    case RecvFirst =>
      t.(client := match t.eng.wire[0]
           case Ack => SendingData
           case Nack => Returned(false)
           case _ => Returned(true))
    case SendData(eof, ok, delivered) =>
      t.(client := if eof || !ok then AwaitFinish else SendingData,
         dataSent := true,
         toRunner := if delivered then t.toRunner + [E.Data(eof)] else t.toRunner)
    case Finish => t.(client := Returned(true))
  }

  // -------------------------------------------------------------------- runner

  predicate Receives(es: E.Step) { es.Env? && es.env.Receive? }
  predicate Answers(es: E.Step) { es.Body? && es.body.Answer? }
  predicate Returns(es: E.Step) { es.Body? && es.body.MainReturns? }

  /** What the capacity gate and the stream add to the engagement's own guards. */
  predicate RunnerEnabled(s: State, a: nat, es: E.Step)
    requires a < |s.attempts| && s.attempts[a].runner < |s.runners|
  {
    var t := s.attempts[a];
    var r := s.runners[t.runner];
    && E.Enabled(t.eng, es)
    && (Receives(es) ==> |t.toRunner| > 0 && t.toRunner[0] == es.env.m)
    && (Answers(es) ==>
          match es.body.outcome
          case BadModel => true
          case CapacityFull => r.total - r.committed < es.body.units
          case _ => r.total - r.committed >= es.body.units)
  }

  /** Capacity after the step: reserved by `handleTryCall`, released when `Engage` returns. */
  function CapacityAfter(r: Runner, e: E.State, es: E.Step): int {
    if Answers(es) && (es.body.outcome.NoCall? || es.body.outcome.Accepted?)
    then r.committed + es.body.units
    else if Returns(es) then r.committed - e.reserved
    else r.committed
  }

  function MoveRunner(t: Attempt, es: E.Step): Attempt
    requires E.Enabled(t.eng, es)
    requires Receives(es) ==> |t.toRunner| > 0
  {
    t.(eng := E.Apply(t.eng, es),
       toRunner := if Receives(es) then t.toRunner[1..] else t.toRunner)
  }

  // -------------------------------------------------------------------- system

  predicate Enabled(s: State, step: Step) {
    match step
    case AddRunner(_) => true
    case AddCall => true
    case Attempting(c, r) => c < |s.calls| && r < |s.runners| && s.calls[c].pc.Choosing?
    case Collect(c) =>
      && c < |s.calls| && s.calls[c].pc.Trying?
      && 0 <= s.calls[c].cur < |s.attempts| && s.attempts[s.calls[c].cur].client.Returned?
    case GiveUp(c) => c < |s.calls| && s.calls[c].pc.Choosing?
    case Client(a, cs) => a < |s.attempts| && ClientEnabled(s.attempts[a], cs)
    case Lose(a, kept) => a < |s.attempts| && kept <= |s.attempts[a].toRunner|
    case RunnerMoves(a, es) =>
      && a < |s.attempts| && s.attempts[a].runner < |s.runners| && RunnerEnabled(s, a, es)
      // `ReleaseCapacity` panics otherwise; `ReleaseNeverPanics` shows it never does.
      && CapacityAfter(s.runners[s.attempts[a].runner], s.attempts[a].eng, es) >= 0
  }

  function Apply(s: State, step: Step): State
    requires Enabled(s, step)
  {
    match step
    case AddRunner(units) => s.(runners := s.runners + [Runner(units, 0)])
    case AddCall => s.(calls := s.calls + [Placer(Choosing, -1)])
    case Attempting(c, r) =>
      s.(calls := s.calls[c := Placer(Trying, |s.attempts|)],
         attempts := s.attempts + [Attempt(c, r, Engaging, false, [], E.INITIAL)])
    case Collect(c) =>
      var placed := s.attempts[s.calls[c].cur].client.placed;
      s.(calls := s.calls[c := s.calls[c].(pc := if placed then Finished else Choosing)])
    case GiveUp(c) => s.(calls := s.calls[c := s.calls[c].(pc := Finished)])
    case Client(a, cs) => s.(attempts := s.attempts[a := ApplyClient(s.attempts[a], cs)])
    case Lose(a, kept) => s.(attempts := s.attempts[a := s.attempts[a].(toRunner := s.attempts[a].toRunner[..kept])])
    case RunnerMoves(a, es) =>
      var t := s.attempts[a];
      var r := s.runners[t.runner];
      s.(attempts := s.attempts[a := MoveRunner(t, es)],
         runners := s.runners[t.runner := r.(committed := CapacityAfter(r, t.eng, es))])
  }

  // ----------------------------------------------------------------- invariant

  /** No data frame was sent, is under way, or was ever taken. */
  predicate DataFree(t: Attempt) {
    && !t.dataSent
    && (forall i :: 0 <= i < |t.toRunner| ==> !t.toRunner[i].Data?)
    && (t.eng.hand.Some? ==> !t.eng.hand.value.Data?)
    && !t.eng.gotData
  }

  /** `TryExec` sends data only on its way to the answer "placed". */
  ghost predicate AttemptInv(t: Attempt) {
    && E.Structure(t.eng)
    && (t.dataSent || DataFree(t))
    && (t.dataSent ==> t.client.SendingData? || t.client.AwaitFinish? || t.client == Returned(true))
  }

  /** Every attempt of the call but the current one ended with "not placed". */
  predicate PlacerInv(s: State, c: nat)
    requires c < |s.calls|
  {
    var p := s.calls[c];
    && -1 <= p.cur < |s.attempts|
    && (p.pc.Trying? ==> p.cur >= 0)
    && (forall a :: 0 <= a < |s.attempts| && s.attempts[a].call == c && a != p.cur ==>
          s.attempts[a].client == Returned(false))
    && (p.pc.Choosing? && p.cur >= 0 ==> s.attempts[p.cur].client == Returned(false))
  }

  function HeldOn(r: nat): Attempt -> int {
    (t: Attempt) => if t.runner == r then t.eng.reserved else 0
  }

  ghost predicate CapacityInv(s: State) {
    forall r :: 0 <= r < |s.runners| ==>
      s.runners[r].committed == Sum(s.attempts, HeldOn(r)) && s.runners[r].committed <= s.runners[r].total
  }

  ghost predicate AttemptsInv(s: State) {
    forall a :: 0 <= a < |s.attempts| ==>
      AttemptInv(s.attempts[a]) && s.attempts[a].call < |s.calls| && s.attempts[a].runner < |s.runners|
  }

  predicate PlacersInv(s: State) {
    forall c :: 0 <= c < |s.calls| ==> PlacerInv(s, c)
  }

  ghost predicate Inv(s: State) { AttemptsInv(s) && PlacersInv(s) && CapacityInv(s) }

  // -------------------------------------------------------------------- proofs

  lemma ClientKeepsAttemptInv(t: Attempt, cs: ClientStep)
    requires AttemptInv(t) && ClientEnabled(t, cs)
    ensures AttemptInv(ApplyClient(t, cs))
    ensures !t.client.Returned?
  {
  }

  lemma EnvMoves(e: E.State, s: E.EnvStep)
    requires E.EnvEnabled(e, s)
    ensures var e' := E.ApplyEnv(e, s);
            && (if s.Receive? then e'.hand == Some(s.m) else e'.hand.Some? ==> e'.hand == e.hand)
            && e'.gotData == e.gotData && e'.reserved == e.reserved
  {
  }

  lemma BodyMoves(e: E.State, s: E.BodyStep)
    requires E.BodyEnabled(e, s)
    ensures var e' := E.ApplyBody(e, s);
            && (e'.hand.Some? ==> e'.hand == e.hand)
            && (e'.gotData ==> e.gotData || (e.hand.Some? && e.hand.value.Data?))
            && (s.Answer? || s.MainReturns? || e'.reserved == e.reserved)
  {
  }

  lemma QueueMoves(e: E.State, s: E.QueueStep)
    requires E.QueueEnabled(e, s)
    ensures var e' := E.ApplyQueue(e, s);
            e'.hand == e.hand && e'.gotData == e.gotData && e'.reserved == e.reserved
  {
  }

  /** What any step of an engagement does to the fields the placement argument reads. */
  lemma EngagementStep(e: E.State, es: E.Step)
    requires E.Enabled(e, es)
    ensures var e' := E.Apply(e, es);
            && (if Receives(es) then e'.hand == Some(es.env.m) else e'.hand.Some? ==> e'.hand == e.hand)
            && (e'.gotData ==> e.gotData || (e.hand.Some? && e.hand.value.Data?))
            && (Answers(es) || Returns(es) || e'.reserved == e.reserved)
  {
    match es
    case Env(s) => EnvMoves(e, s);
    case Body(s) => BodyMoves(e, s);
    case Queue(s) => QueueMoves(e, s);
    case Agent(s) =>
  }

  lemma RunnerKeepsAttemptInv(t: Attempt, es: E.Step)
    requires AttemptInv(t) && E.Enabled(t.eng, es)
    requires Receives(es) ==> |t.toRunner| > 0 && t.toRunner[0] == es.env.m
    ensures AttemptInv(MoveRunner(t, es))
  {
    E.StepKeepsStructure(t.eng, es);
    EngagementStep(t.eng, es);
  }

  /** Replacing one attempt by another of the same call and runner, which keeps
      its answer once it has given it, keeps the placers' view. */
  lemma ReplaceAttempt(s: State, a: nat, t: Attempt)
    requires AttemptsInv(s) && PlacersInv(s) && a < |s.attempts|
    requires AttemptInv(t) && t.call == s.attempts[a].call && t.runner == s.attempts[a].runner
    requires s.attempts[a].client.Returned? ==> t.client == s.attempts[a].client
    ensures AttemptsInv(s.(attempts := s.attempts[a := t])) && PlacersInv(s.(attempts := s.attempts[a := t]))
  {
    var s' := s.(attempts := s.attempts[a := t]);
    forall c | 0 <= c < |s'.calls| ensures PlacerInv(s', c) {
      assert PlacerInv(s, c);
    }
  }

  /** Nothing in `Step` but an engagement's own moves changes what is held. */
  lemma SameHeld(s: State, a: nat, t: Attempt)
    requires CapacityInv(s) && a < |s.attempts|
    requires t.runner == s.attempts[a].runner && t.eng.reserved == s.attempts[a].eng.reserved
    ensures CapacityInv(s.(attempts := s.attempts[a := t]))
  {
    forall r | 0 <= r < |s.runners|
      ensures Sum(s.attempts[a := t], HeldOn(r)) == Sum(s.attempts, HeldOn(r))
    {
      SumUpdate(s.attempts, a, t, HeldOn(r));
    }
  }

  /** A runner's committed units cover each engagement's reservation, so
      `ReleaseCapacity` never takes the panicking branch. */
  lemma ReleaseNeverPanics(s: State, a: nat, es: E.Step)
    requires Inv(s) && a < |s.attempts|
    requires RunnerEnabled(s, a, es)
    ensures CapacityAfter(s.runners[s.attempts[a].runner], s.attempts[a].eng, es) >= 0
  {
    var r := s.attempts[a].runner;
    SumBounds(s.attempts, HeldOn(r));
    assert HeldOn(r)(s.attempts[a]) <= Sum(s.attempts, HeldOn(r));
  }

  lemma RunnerKeepsCapacity(s: State, a: nat, es: E.Step)
    requires Inv(s) && Enabled(s, RunnerMoves(a, es))
    ensures CapacityInv(Apply(s, RunnerMoves(a, es)))
  {
    hide Sum;
    var t := s.attempts[a];
    var t' := MoveRunner(t, es);
    var s' := Apply(s, RunnerMoves(a, es));
    EngagementStep(t.eng, es);
    forall r | 0 <= r < |s'.runners|
      ensures s'.runners[r].committed == Sum(s'.attempts, HeldOn(r)) && s'.runners[r].committed <= s'.runners[r].total
    {
      SumUpdate(s.attempts, a, t', HeldOn(r));
      assert s.runners[r].committed == Sum(s.attempts, HeldOn(r));
    }
  }

  lemma AttemptingKeepsInv(s: State, c: nat, r: nat)
    requires Inv(s) && Enabled(s, Attempting(c, r))
    ensures Inv(Apply(s, Attempting(c, r)))
  {
    var s' := Apply(s, Attempting(c, r));
    var t := s'.attempts[|s.attempts|];
    assert E.Structure(E.INITIAL);
    forall r' | 0 <= r' < |s.runners| ensures Sum(s'.attempts, HeldOn(r')) == Sum(s.attempts, HeldOn(r')) {
      SumAppend(s.attempts, t, HeldOn(r'));
    }
    forall c' | 0 <= c' < |s'.calls| ensures PlacerInv(s', c') {
      assert PlacerInv(s, c');
    }
  }

  lemma PlacerKeepsInv(s: State, step: Step)
    requires Inv(s) && Enabled(s, step)
    requires step.AddRunner? || step.AddCall? || step.Collect? || step.GiveUp?
    ensures Inv(Apply(s, step))
  {
    hide Sum, AttemptInv;
    var s' := Apply(s, step);
    assert s'.attempts == s.attempts;
    forall c | 0 <= c < |s'.calls| ensures PlacerInv(s', c) {
      if c < |s.calls| { assert PlacerInv(s, c); }
    }
    if step.AddRunner? {
      SumZero(s.attempts, HeldOn(|s.runners|));
    }
  }

  lemma StepKeepsInv(s: State, step: Step)
    requires Inv(s) && Enabled(s, step)
    ensures Inv(Apply(s, step))
  {
    match step
    case Attempting(c, r) => AttemptingKeepsInv(s, c, r);
    case Client(a, cs) =>
      ClientKeepsAttemptInv(s.attempts[a], cs);
      ReplaceAttempt(s, a, ApplyClient(s.attempts[a], cs));
      SameHeld(s, a, ApplyClient(s.attempts[a], cs));
    case Lose(a, kept) =>
      var t := s.attempts[a].(toRunner := s.attempts[a].toRunner[..kept]);
      assert AttemptInv(t);
      ReplaceAttempt(s, a, t);
      SameHeld(s, a, t);
    case RunnerMoves(a, es) =>
      RunnerKeepsAttemptInv(s.attempts[a], es);
      ReplaceAttempt(s, a, MoveRunner(s.attempts[a], es));
      RunnerKeepsCapacity(s, a, es);
      PlacersSeeNoRunners(s.(attempts := s.attempts[a := MoveRunner(s.attempts[a], es)]), Apply(s, step));
    case _ => PlacerKeepsInv(s, step);
  }

  /** The placers' part of the invariant does not look at the capacity counters. */
  lemma PlacersSeeNoRunners(s: State, s': State)
    requires AttemptsInv(s) && PlacersInv(s)
    requires s'.attempts == s.attempts && s'.calls == s.calls && |s'.runners| == |s.runners|
    ensures AttemptsInv(s') && PlacersInv(s')
  {
    forall c | 0 <= c < |s'.calls| ensures PlacerInv(s', c) {
      assert PlacerInv(s, c);
    }
  }

  // ---------------------------------------------------------------------- runs

  ghost predicate IsRun(run: seq<State>, steps: seq<Step>) {
    && |run| == |steps| + 1
    && run[0] == State([], [], [])
    && forall i :: 0 <= i < |steps| ==> Enabled(run[i], steps[i]) && run[i + 1] == Apply(run[i], steps[i])
  }

  lemma {:induction false} RunKeepsInv(run: seq<State>, steps: seq<Step>, n: nat)
    requires IsRun(run, steps) && n < |run|
    ensures Inv(run[n])
  {
    if n > 0 {
      RunKeepsInv(run, steps, n - 1);
      StepKeepsInv(run[n - 1], steps[n - 1]);
    }
  }

  predicate Submitted(t: Attempt) { t.eng.submits > 0 }

  /** At most once: across all retries of a call, over all runners and whatever
      is lost, at most one engagement ever reaches `agent.Submit`, and it does so once. */
  lemma AtMostOneSubmit(run: seq<State>, steps: seq<Step>, n: nat, a: nat, b: nat)
    requires IsRun(run, steps) && n < |run|
    requires a < |run[n].attempts| && b < |run[n].attempts|
    requires run[n].attempts[a].call == run[n].attempts[b].call
    requires Submitted(run[n].attempts[a]) && Submitted(run[n].attempts[b])
    ensures a == b
    ensures run[n].attempts[a].eng.submits == 1
  {
    RunKeepsInv(run, steps, n);
    var s := run[n];
    assert AttemptInv(s.attempts[a]) && AttemptInv(s.attempts[b]);
    assert s.attempts[a].dataSent && s.attempts[b].dataSent;
    assert PlacerInv(s, s.attempts[a].call);
  }

  /** An attempt that answered "not placed" keeps that answer. */
  lemma {:induction false} AnswerIsStable(run: seq<State>, steps: seq<Step>, n: nat, m: nat, a: nat)
    requires IsRun(run, steps) && n <= m < |run| && a < |run[n].attempts|
    requires run[n].attempts[a].client.Returned?
    ensures a < |run[m].attempts| && run[m].attempts[a].client == run[n].attempts[a].client
  {
    if m > n {
      AnswerIsStable(run, steps, n, m - 1, a);
      assert Enabled(run[m - 1], steps[m - 1]) && run[m] == Apply(run[m - 1], steps[m - 1]);
    }
  }

  /** A retry is safe for good: after "not placed" that runner never submits the call,
      however late its goroutines and the messages still under way are scheduled. */
  lemma NotPlacedNeverSubmits(run: seq<State>, steps: seq<Step>, n: nat, m: nat, a: nat)
    requires IsRun(run, steps) && n <= m < |run| && a < |run[n].attempts|
    requires run[n].attempts[a].client == Returned(false)
    ensures a < |run[m].attempts| && !Submitted(run[m].attempts[a]) && !run[m].attempts[a].dataSent
  {
    AnswerIsStable(run, steps, n, m, a);
    RunKeepsInv(run, steps, m);
    assert AttemptInv(run[m].attempts[a]);
  }

  /** Capacity of a runner: what is committed is what its live engagements hold,
      it never exceeds the total, and a submit runs only in an accepted engagement. */
  lemma CapacityIsConserved(run: seq<State>, steps: seq<Step>, n: nat, r: nat)
    requires IsRun(run, steps) && n < |run| && r < |run[n].runners|
    ensures run[n].runners[r].committed == Sum(run[n].attempts, HeldOn(r)) <= run[n].runners[r].total
    ensures forall a :: 0 <= a < |run[n].attempts| && Submitted(run[n].attempts[a]) ==> run[n].attempts[a].eng.accepted
    ensures (forall a :: 0 <= a < |run[n].attempts| ==> run[n].attempts[a].eng.ctl.main == E.Returned)
            ==> run[n].runners[r].committed == 0
  {
    RunKeepsInv(run, steps, n);
    var s := run[n];
    forall a | 0 <= a < |s.attempts| && Submitted(s.attempts[a]) ensures s.attempts[a].eng.accepted {
      assert AttemptInv(s.attempts[a]);
    }
    if forall a :: 0 <= a < |s.attempts| ==> s.attempts[a].eng.ctl.main == E.Returned {
      forall a | 0 <= a < |s.attempts| ensures HeldOn(r)(s.attempts[a]) == 0 {
        assert AttemptInv(s.attempts[a]);
      }
      SumZero(s.attempts, HeldOn(r));
    }
  }

  // ------------------------------------------------------------------ the capacity gate

  /** `pureRunnerCapacityManager` in place: what `CapacityAfter` does to a `Runner`. */
  class CapacityManager {
    const total: u64
    var committed: u64

    ghost predicate Valid()
      reads this
    {
      committed <= total
    }

    function Gate(): Runner
      reads this
    {
      Runner(total, committed)
    }

    constructor (units: u64)
      ensures Valid() && Gate() == Runner(units, 0)
    {
      total := units;
      committed := 0;
    }

    /** All or nothing: an error commits no capacity. */
    method CheckAndReserveCapacity(units: u64) returns (ok: bool)
      requires Valid()
      modifies this
      ensures Valid()
      ensures ok <==> old(committed) + units <= total
      ensures Gate() == if ok then Runner(total, old(committed) + units) else old(Gate())
    {
      ok := Sub64(total, committed) >= units;
      if ok {
        committed := Add64(committed, units);
      }
    }

    /** Undoes a reservation; panics (false) on more than is committed, and changes nothing then. */
    method ReleaseCapacity(units: u64) returns (ok: bool)
      requires Valid()
      modifies this
      ensures Valid()
      ensures ok <==> units <= old(committed)
      ensures Gate() == if ok then Runner(total, old(committed) - units) else old(Gate())
    {
      ok := units <= committed;
      if ok {
        committed := Sub64(committed, units);
      }
    }
  }
}
