/** What the answers of placement mean: when a call counts as placed, when it is offered to another
    runner, and that nothing is made up on the way to the runner. */
module PlacementAnswers {
  import opened Words
  import opened Placement
  import E = Engagement
  import EngagementCauses

  predicate ReadsFirst(s: State, step: Step, a: nat) {
    step == Client(a, RecvFirst) && a < |s.attempts| && |s.attempts[a].eng.wire| > 0
  }

  /** The step commits the attempt: no runner could run the call, or the runner answered, and not
      with a refusal. */
  predicate Commits(s: State, step: Step, a: nat) {
    step == Client(a, FailsLocally) || (ReadsFirst(s, step, a) && !s.attempts[a].eng.wire[0].Nack?)
  }

  ghost predicate Committed(run: seq<State>, steps: seq<Step>, n: nat, a: nat)
    requires IsRun(run, steps) && n <= |steps|
  {
    exists i :: 0 <= i < n && Commits(run[i], steps[i], a)
  }

  predicate Answering(pc: ClientPc) { pc.SendingData? || pc.AwaitFinish? || pc == Returned(true) }

  /** What one step does to an attempt's client. */
  lemma ClientMoves(s: State, step: Step, a: nat)
    requires Enabled(s, step) && a < |s.attempts|
    ensures a < |Apply(s, step).attempts|
    ensures var pc, pc' := s.attempts[a].client, Apply(s, step).attempts[a].client;
      && (Commits(s, step, a) ==> !Answering(pc) && !pc.Returned? && Answering(pc'))
      && (!Commits(s, step, a) ==> (Answering(pc') <==> Answering(pc)))
  {
  }

  lemma {:induction false} AnsweringIffCommitted(run: seq<State>, steps: seq<Step>, n: nat, a: nat)
    requires IsRun(run, steps) && n < |run|
    ensures if a < |run[n].attempts| then Answering(run[n].attempts[a].client) <==> Committed(run, steps, n, a)
            else !Committed(run, steps, n, a)
  {
    if n > 0 {
      AnsweringIffCommitted(run, steps, n - 1, a);
      var s, step := run[n - 1], steps[n - 1];
      assert Enabled(s, step) && run[n] == Apply(s, step);
      if a < |s.attempts| { ClientMoves(s, step, a); }
      assert Committed(run, steps, n, a) <==> Committed(run, steps, n - 1, a) || Commits(s, step, a);
    }
  }

  /** `TryExec` answers "placed" if and only if it gave up for all runners, or the runner's first
      message was read and is no refusal. */
  lemma PlacedIffCommitted(run: seq<State>, steps: seq<Step>, n: nat, a: nat)
    requires IsRun(run, steps) && n < |run| && a < |run[n].attempts| && run[n].attempts[a].client.Returned?
    ensures run[n].attempts[a].client.placed <==> Committed(run, steps, n, a)
  {
    AnsweringIffCommitted(run, steps, n, a);
  }

  // ------------------------------------------------------------------------- refusals

  /** The runner has not seen a try and will not: none was sent. */
  predicate Untried(t: Attempt) {
    && (forall i :: 0 <= i < |t.toRunner| ==> !t.toRunner[i].Try?)
    && (t.eng.hand.Some? ==> !t.eng.hand.value.Try?)
    && (t.eng.ctl.main.AwaitTry? || t.eng.ctl.main.AwaitEnd? || t.eng.ctl.main.Returned?)
    && t.eng.ctl.submit.NotSpawned? && t.eng.ctl.writer.NoWrite?
    && t.eng.wire == [] && !t.eng.ctl.sender.SSending?
  }

  predicate FirstIs(t: Attempt, m: E.RunnerMsg) { |t.eng.wire| > 0 && t.eng.wire[0] == m }

  predicate AnswerInv(t: Attempt) {
    && (t.client.Engaging? ==> Untried(t))
    && (Answering(t.client) ==> Untried(t) || (|t.eng.wire| > 0 && !t.eng.wire[0].Nack?))
  }

  lemma ClientKeepsAnswerInv(t: Attempt, cs: ClientStep)
    requires AnswerInv(t) && ClientEnabled(t, cs)
    ensures AnswerInv(ApplyClient(t, cs))
  {
  }

  lemma UntriedEnv(t: Attempt, es: E.EnvStep)
    requires Untried(t) && E.EnvEnabled(t.eng, es) && (es.Receive? ==> !es.m.Try?)
    ensures Untried(t.(eng := E.ApplyEnv(t.eng, es)))
  {
  }

  lemma UntriedBody(t: Attempt, es: E.BodyStep)
    requires Untried(t) && E.BodyEnabled(t.eng, es)
    ensures Untried(t.(eng := E.ApplyBody(t.eng, es)))
  {
  }

  lemma UntriedQueue(t: Attempt, es: E.QueueStep)
    requires Untried(t) && E.QueueEnabled(t.eng, es)
    ensures Untried(t.(eng := E.ApplyQueue(t.eng, es)))
  {
  }

  /** A runner that got no try says nothing. */
  lemma RunnerKeepsUntried(t: Attempt, es: E.Step)
    requires Untried(t) && E.Enabled(t.eng, es)
    requires Receives(es) ==> |t.toRunner| > 0 && t.toRunner[0] == es.env.m
    ensures Untried(MoveRunner(t, es))
  {
    match es
    case Env(s) => UntriedEnv(t, s);
    case Body(s) => UntriedBody(t, s);
    case Queue(s) => UntriedQueue(t, s);
    case Agent(s) =>
  }

  lemma RunnerKeepsAnswerInv(t: Attempt, es: E.Step)
    requires AnswerInv(t) && E.Enabled(t.eng, es)
    requires Receives(es) ==> |t.toRunner| > 0 && t.toRunner[0] == es.env.m
    ensures AnswerInv(MoveRunner(t, es))
  {
    EngagementCauses.WireGrows(t.eng, es);
    if Untried(t) { RunnerKeepsUntried(t, es); }
    hide E.Apply, E.Enabled, Untried;
  }

  lemma StepKeepsAnswers(s: State, step: Step)
    requires Enabled(s, step) && forall a :: 0 <= a < |s.attempts| ==> AnswerInv(s.attempts[a])
    ensures forall a :: 0 <= a < |Apply(s, step).attempts| ==> AnswerInv(Apply(s, step).attempts[a])
  {
    match step
    case Client(a, cs) => ClientKeepsAnswerInv(s.attempts[a], cs);
    case RunnerMoves(a, es) => RunnerKeepsAnswerInv(s.attempts[a], es);
    case _ =>
  }

  lemma {:induction false} RunKeepsAnswers(run: seq<State>, steps: seq<Step>, n: nat)
    requires IsRun(run, steps) && n < |run|
    ensures forall a :: 0 <= a < |run[n].attempts| ==> AnswerInv(run[n].attempts[a])
  {
    if n > 0 {
      RunKeepsAnswers(run, steps, n - 1);
      StepKeepsAnswers(run[n - 1], steps[n - 1]);
    }
  }

  /** A call that a runner refuses is never reported as placed there. */
  lemma RefusedIsNotPlaced(run: seq<State>, steps: seq<Step>, n: nat, a: nat)
    requires IsRun(run, steps) && n < |run| && a < |run[n].attempts| && FirstIs(run[n].attempts[a], E.Nack)
    ensures run[n].attempts[a].client != Returned(true)
  {
    RunKeepsAnswers(run, steps, n);
    assert AnswerInv(run[n].attempts[a]);
  }

  /** When the placer looks at an answer, the call is done if and only if the attempt was committed;
      otherwise, in particular after a refusal, it can be offered to every runner. */
  lemma CollectDecides(run: seq<State>, steps: seq<Step>, n: nat, c: nat)
    requires IsRun(run, steps) && n < |steps| && steps[n] == Collect(c)
    ensures c < |run[n].calls| && 0 <= run[n].calls[c].cur < |run[n].attempts| && c < |run[n + 1].calls|
    ensures run[n].calls[c].pc.Trying? && run[n].attempts[run[n].calls[c].cur].client.Returned?
    ensures var a := run[n].calls[c].cur;
      && (run[n + 1].calls[c].pc.Finished? <==> Committed(run, steps, n, a))
      && (FirstIs(run[n].attempts[a], E.Nack) ==> run[n + 1].calls[c].pc.Choosing?)
    ensures !run[n + 1].calls[c].pc.Finished? ==>
      forall r :: 0 <= r < |run[n + 1].runners| ==> Enabled(run[n + 1], Attempting(c, r))
  {
    assert Enabled(run[n], steps[n]) && run[n + 1] == Apply(run[n], steps[n]);
    var a := run[n].calls[c].cur;
    PlacedIffCommitted(run, steps, n, a);
    if FirstIs(run[n].attempts[a], E.Nack) { RefusedIsNotPlaced(run, steps, n, a); }
  }

  /** A placer gives a call up only between attempts, and offers it only then. */
  lemma ActsBetweenAttempts(run: seq<State>, steps: seq<Step>, n: nat, c: nat)
    requires IsRun(run, steps) && n < |steps|
    requires steps[n] == GiveUp(c) || (steps[n].Attempting? && steps[n].c == c)
    ensures c < |run[n].calls| && run[n].calls[c].pc.Choosing?
    ensures run[n].calls[c].cur >= 0 ==>
      run[n].calls[c].cur < |run[n].attempts| && run[n].attempts[run[n].calls[c].cur].client == Returned(false)
  {
    assert Enabled(run[n], steps[n]);
    RunKeepsInv(run, steps, n);
    assert PlacerInv(run[n], c);
  }

  // ------------------------------------------------------------------------- the stream

  /** The messages of attempt `a` that left the client, by the steps alone. */
  function Sent(steps: seq<Step>, a: nat): seq<E.ClientMsg> {
    if steps == [] then []
    else
      var n := |steps| - 1;
      Sent(steps[..n], a) +
      match steps[n]
      case Client(b, SendTry(_, delivered)) => if a == b && delivered then [E.Try] else []
      case Client(b, SendData(eof, _, delivered)) => if a == b && delivered then [E.Data(eof)] else []
      case _ => []
  }

  function Received(steps: seq<Step>, a: nat): seq<E.ClientMsg> {
    if steps == [] then []
    else
      var n := |steps| - 1;
      Received(steps[..n], a) +
      match steps[n]
      case RunnerMoves(b, Env(Receive(m))) => if a == b then [m] else []
      case _ => []
  }

  predicate NoLoss(steps: seq<Step>, n: nat, a: nat)
    requires n <= |steps|
  {
    forall i :: 0 <= i < n && steps[i].Lose? ==> steps[i].a != a
  }

  function InFlight(s: State, a: nat): seq<E.ClientMsg> {
    if a < |s.attempts| then s.attempts[a].toRunner else []
  }

  lemma FlightMoves(s: State, step: Step, a: nat)
    requires Enabled(s, step) && (step.Lose? ==> step.a != a)
    ensures InFlight(s, a) + Sent([step], a) == Received([step], a) + InFlight(Apply(s, step), a)
  {
    assert [step][..0] == [];
  }

  lemma OneMore(steps: seq<Step>, n: nat, a: nat)
    requires n < |steps|
    ensures Sent(steps[..n + 1], a) == Sent(steps[..n], a) + Sent([steps[n]], a)
    ensures Received(steps[..n + 1], a) == Received(steps[..n], a) + Received([steps[n]], a)
  {
    assert steps[..n + 1][..n] == steps[..n] && [steps[n]][..0] == [];
  }

  /** Without loss, what the runner has received and what is under way is what was sent, in order. */
  lemma {:induction false} StreamIsFifo(run: seq<State>, steps: seq<Step>, n: nat, a: nat)
    requires IsRun(run, steps) && n < |run| && NoLoss(steps, n, a)
    ensures Sent(steps[..n], a) == Received(steps[..n], a) + InFlight(run[n], a)
  {
    if n > 0 {
      StreamIsFifo(run, steps, n - 1, a);
      assert Enabled(run[n - 1], steps[n - 1]) && run[n] == Apply(run[n - 1], steps[n - 1]);
      hide Sent, Received, InFlight, Apply, Enabled;
      FlightMoves(run[n - 1], steps[n - 1], a);
      OneMore(steps, n - 1, a);
      Shifted(Sent(steps[..n - 1], a), Received(steps[..n - 1], a), InFlight(run[n - 1], a),
              Sent([steps[n - 1]], a), Received([steps[n - 1]], a), InFlight(run[n], a));
    }
  }

  lemma Shifted(sent: seq<E.ClientMsg>, got: seq<E.ClientMsg>, flying: seq<E.ClientMsg>,
                more: seq<E.ClientMsg>, taken: seq<E.ClientMsg>, left: seq<E.ClientMsg>)
    requires sent == got + flying && flying + more == taken + left
    ensures sent + more == (got + taken) + left
  {
    assert sent + more == got + (flying + more);
  }
}
