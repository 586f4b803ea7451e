/** What the body of an engagement does with what it receives, as scripts of steps with their effect. */
module EngagementLife {
  import opened Words
  import opened Engagement
  import opened Scripts

  function Next(e: State, step: Step): Option<State> { if Enabled(e, step) then Some(Apply(e, step)) else None }

  /** The receiver is there and has nothing in hand. */
  predicate Receiving(e: State) { e.hand.None? && !e.inClosed }

  /** A try is handled. */
  lemma TryIsHandled(e: State) returns (script: seq<Step>, e': State)
    requires Receiving(e) && e.ctl.main.AwaitTry?
    ensures script == [Env(Receive(Try)), Body(MainTakes)] && Runs(Next, e, script, e')
    ensures e' == e.(ctl := e.ctl.(main := HandleTry))
  {
    Begin(Next, e);
    hide Execute, Runs, Shutdown;
    script, e' := Then(Next, e, [], e, Env(Receive(Try)));
    script, e' := Then(Next, e, script, e', Body(MainTakes));
  }

  /** Each data frame is fed to the function, the first one after starting `Submit`, and the last one
      ends the loop. */
  lemma DataIsFed(e: State, eof: bool) returns (script: seq<Step>, e': State)
    requires Receiving(e) && e.ctl.main.AwaitData?
    ensures script == [Env(Receive(Data(eof))), Body(MainTakes), Body(FeedPipe)] && Runs(Next, e, script, e')
    ensures var first := e.ctl.submit.NotSpawned?;
      && e'.ctl == e.ctl.(main := if eof then AwaitEnd else AwaitData,
                          submit := if first then Running else e.ctl.submit)
      && e' == e.(ctl := e'.ctl, gotData := true, submits := if first then e.submits + 1 else e.submits)
  {
    Begin(Next, e);
    hide Execute, Runs, Shutdown;
    script, e' := Then(Next, e, [], e, Env(Receive(Data(eof))));
    script, e' := Then(Next, e, script, e', Body(MainTakes));
    script, e' := Then(Next, e, script, e', Body(FeedPipe));
  }

  /** A message out of turn ends the session, and nothing of it is handled. */
  lemma OutOfTurnEnds(e: State, m: ClientMsg) returns (script: seq<Step>, e': State)
    requires Receiving(e) && (if m.Try? then e.ctl.main.AwaitData? else e.ctl.main.AwaitTry?)
    ensures script == [Env(Receive(m)), Body(MainTakes)] && Runs(Next, e, script, e')
    ensures e'.ctl.done && e'.ctl.main.AwaitEnd? && e'.submits == e.submits && e'.gotData == e.gotData && e'.hand.None?
  {
    Begin(Next, e);
    hide Execute, Runs;
    script, e' := Then(Next, e, [], e, Env(Receive(m)));
    script, e' := Then(Next, e, script, e', Body(MainTakes));
  }

  /** When the client closes its side in order, nothing is cut off: only a body still waiting for a
      message ends the session. */
  lemma ClientMayCloseItsSide(e: State) returns (script: seq<Step>, e': State)
    requires Receiving(e) && (e.ctl.main.AwaitTry? || e.ctl.main.AwaitData?)
    ensures Next(e, Env(ReceiverEnds(true))) == Some(e.(inClosed := true))
    ensures script == [Env(ReceiverEnds(true)), Body(MainGivesUp)] && Runs(Next, e, script, e')
    ensures e'.ctl.done && e'.ctl.main.AwaitEnd? && e'.wire == e.wire && e'.submits == e.submits
  {
    Begin(Next, e);
    hide Execute, Runs;
    script, e' := Then(Next, e, [], e, Env(ReceiverEnds(true)));
    script, e' := Then(Next, e, script, e', Body(MainGivesUp));
  }

  /** A broken stream, a broken pipe and a cancelled context all close the session. */
  lemma FailuresClose(e: State)
    ensures !e.inClosed ==> Next(e, Env(ReceiverEnds(false))).Some? && Next(e, Env(ReceiverEnds(false))).value.ctl.done
    ensures !e.ctl.submit.NotSpawned? ==> Next(e, Env(PipeFails)).Some? && Next(e, Env(PipeFails)).value.ctl.done
    ensures Next(e, Env(CancelCtx)).Some? && Next(e, Env(CancelCtx)).value.ctl.ctxDone
  {
  }

  /** Closing wakes everybody who waits: whoever offered an answer or a write is refused, and the
      response goes on to its next message. */
  lemma ClosingWakes(e: State)
    requires !e.ctl.done && NobodyParkedOnceClosed(e.ctl) && !e.inClosed
    ensures var c, c' := e.ctl, Next(e, Env(ReceiverEnds(false))).value.ctl;
      && !c'.mainParked && !c'.submitParked && !c'.writerParked && !c'.sender.SParked?
      && (c.writerParked ==> c'.writer.NoWrite?) && (!c.writerParked ==> c'.writer == c.writer)
      && (c.mainParked ==> c'.main.AwaitEnd?) && (!c.mainParked ==> c'.main == c.main)
      && (c.sender.SParked? ==> c'.sender.SExit?) && (!c.sender.SParked? ==> c'.sender == c.sender)
      && (!c.submitParked ==> c'.submit == c.submit)
      && (c.submitParked && c.submit.EnqEof? ==> c'.submit.EnqFinish?)
      && (c.submitParked && (c.submit.EnqFail? || c.submit.EnqFinish?) ==> c'.submit.EnqEnd?)
      && (c.submitParked && c.submit.EnqEnd? ==> c'.submit.Ended?)
  {
  }

  /** In a closed session every offer fails, one after the other, until nobody offers anything. */
  lemma OffersFail(e: State, who: Who)
    requires Closed(e.ctl) && !Parked(e.ctl, who) && Offered(e.ctl, who).Some?
    ensures var e' := Next(e, Queue(EnqueueFails(who)));
      && e'.Some? && e'.value.wire == e.wire
      && (who.Writer? ==> e'.value.ctl == e.ctl.(writer := NoWrite, writerParked := false))
      && (who.Main? ==> e'.value.ctl.main.AwaitEnd? && e'.value.ctl.done)
      && (who.Submit? ==> e'.value.ctl.done && e'.value.ctl.submit != e.ctl.submit)
  {
  }

  /** `Engage` returns once the session is closed, and gives its capacity back. */
  lemma EngageReturns(e: State)
    requires Closed(e.ctl) && (e.ctl.main.AwaitEnd? || e.ctl.main.Feed?)
    ensures var e1 := if e.ctl.main.Feed? then Next(e, Body(FeedAborted)) else Some(e);
      && e1.Some? && Next(e1.value, Body(MainReturns)) == Some(e.(reserved := 0, ctl := e.ctl.(main := Returned)))
  {
  }

  /** The sender parks only if nobody offers, and stops once the session is closed. */
  lemma SenderWaits(e: State)
    requires e.ctl.sender.SPoll?
    ensures Closed(e.ctl) ==> Next(e, Queue(SenderStops)) == Some(e.(ctl := e.ctl.(sender := SExit)))
    ensures !Closed(e.ctl) && !e.ctl.mainParked && !e.ctl.submitParked && !e.ctl.writerParked ==>
      Next(e, Queue(SenderParks)) == Some(e.(ctl := e.ctl.(sender := SParked)))
  {
  }

  /** A failed send closes the session, though the message may have gone out. */
  lemma FailedSendCloses(e: State)
    requires e.ctl.sender.SSending? && e.ctl.sender.item.Msg?
    ensures var e' := Next(e, Queue(SenderSends(false)));
      e'.Some? && e'.value.ctl.done && e'.value.wire == e.wire + [e.ctl.sender.item.m]
  {
  }

  /** The receiver ends with what it had in hand, and does not come back. */
  lemma ReceiverEndsWithItsMessage(e: State)
    requires !e.inClosed
    ensures Next(e, Env(ReceiverEnds(true))) == Some(e.(inClosed := true, hand := None))
    ensures Next(e, Env(ReceiverEnds(false))).Some? && Next(e, Env(ReceiverEnds(false))).value.hand.None?
  {
  }

  /** Capacity is held exactly from the gate on: by an accepted call, and by one that fails behind the gate. */
  lemma AnswerReserves(e: State, outcome: TryOutcome, units: nat)
    requires e.ctl.main.HandleTry?
    ensures var e' := Next(e, Body(Answer(outcome, units)));
      && e'.Some? && (e'.value.accepted <==> outcome.Accepted? || e.accepted)
      && e'.value.reserved == if outcome.Accepted? || outcome.NoCall? then units else e.reserved
  {
  }

  /** Everything in its turn: the receiver takes one message at a time while it is there, the pipe fails only
      after `Submit` was started, and the body ends early, or returns, only once the session is closed. */
  lemma StepsComeInTurn(run: seq<State>, steps: seq<Step>, n: nat)
    requires IsRun(run, steps) && n < |steps|
    ensures var e, step := run[n], steps[n];
      && (step.Env? && step.env.Receive? ==> e.hand.None? && !e.inClosed)
      && (step.Env? && step.env.ReceiverEnds? ==> !e.inClosed)
      && (step == Env(PipeFails) ==> e.submits > 0)
      && (step == Body(FeedAborted) || step == Body(MainReturns) ==> Closed(e.ctl))
      && (step == Body(MainGivesUp) ==> Closed(e.ctl) || e.inClosed)
  {
    assert Enabled(run[n], steps[n]);
    StructureInRuns(run, steps, n);
  }

  lemma {:induction false} StructureInRuns(run: seq<State>, steps: seq<Step>, n: nat)
    requires IsRun(run, steps) && n < |run|
    ensures Structure(run[n])
  {
    if n > 0 {
      StructureInRuns(run, steps, n - 1);
      StepKeepsStructure(run[n - 1], steps[n - 1]);
    }
  }
}
