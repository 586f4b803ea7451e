/** One engagement of the pure runner: the goroutines of a `callHandle` (gRPC
    receiver, gRPC sender, the `Engage` body, the submit goroutine, the dispatch
    goroutine that writes the response) and the channels between them, as a
    small-step machine.

    The queue `outQueue` is unbuffered and both of its ends sit in a `select`
    that also watches `doneQueue` and the context.  A select first polls its
    cases; it parks only if none can proceed; closing a channel wakes every
    parked select with the closed case.  `SParked`, `mainParked`, `submitParked`
    and `writerParked` carry exactly that distinction.  Which of two parked senders
    goes first is not specified. */
module Engagement {
  import opened Words

  datatype ClientMsg = Try | Data(eof: bool)

  datatype RunnerMsg =
    | Nack
    | Ack
    | ResultStart
    | DataFrame
    | EofFrame
    | Finished(success: bool)

  /** What travels through `outQueue`: a message, or the nil sentinel of `finalize`. */
  datatype Item = Msg(m: RunnerMsg) | Sentinel

  datatype SenderPc = SPoll | SParked | SSending(item: Item) | SExit

  /** Where the body of `Engage` is; the `Enq*` points are inside `enqueueMsg`. */
  datatype MainPc =
    | AwaitTry
    | HandleTry
    | EnqAck
    | EnqNack
    | EnqNackEnd
    | AwaitData
    | Feed(last: bool)
    | AwaitEnd
    | Returned

  /** Where the goroutine of `spawnSubmit` is.  `Running` is inside
      `agent.Submit`; the later points belong to `enqueueCallResponse`. */
  datatype SubmitPc =
    | NotSpawned
    | Running
    | EnqFail
    | EnqEof
    | EnqFinish
    | EnqEnd
    | Ended

  /** Where the goroutine that dispatches the call is in `Write`, with its two enqueues.
      `Submit` does not wait for it when the call times out or the container fails. */
  datatype WriterPc = NoWrite | EnqStart | EnqData

  /** How `handleTryCall` ends. */
  datatype TryOutcome = BadModel | CapacityFull | NoCall | Accepted

  /** Program counters and channel flags. */
  datatype Control = Control(
    done: bool,                // doneQueue is closed
    ctxDone: bool,             // the stream's context is done
    sender: SenderPc,
    main: MainPc,
    mainParked: bool,
    submit: SubmitPc,
    submitParked: bool,
    writer: WriterPc,
    writerParked: bool
  )

  datatype State = State(
    ctl: Control,
    inClosed: bool,            // inQueue is closed: the receiver has gone
    hand: Option<ClientMsg>,   // the message the receiver is offering on inQueue
    headerOnce: bool,          // headerOnce has fired
    gotData: bool,             // the data loop has taken a data frame
    accepted: bool,            // handleTryCall succeeded
    reserved: nat,             // capacity units held until Engage returns
    submits: nat,              // how often agent.Submit was started
    wire: seq<RunnerMsg>       // messages handed to engagement.Send, in order
  )

  const INITIAL: State :=
    State(Control(false, false, SPoll, AwaitTry, false, NotSpawned, false, NoWrite, false),
          false, None, false, false, false, 0, 0, [])

  datatype Who = Main | Submit | Writer

  /** The receiver goroutine, the pipe goroutine and the stream's context. */
  datatype EnvStep =
    | Receive(m: ClientMsg)
    | ReceiverEnds(clean: bool)
    | CancelCtx
    | PipeFails

  /** The body of `Engage` outside `enqueueMsg`. */
  datatype BodyStep =
    | MainTakes
    | MainGivesUp
    | Answer(outcome: TryOutcome, units: nat)
    | FeedPipe
    | FeedAborted
    | MainReturns

  /** Both ends of `outQueue`. */
  datatype QueueStep =
    | Meet(who: Who)
    | EnqueueFails(who: Who)
    | EnqueueParks(who: Who)
    | SenderStops
    | SenderParks
    | SenderSends(ok: bool)

  /** The agent: `Submit` finally returns; writes may begin as soon as it was started. */
  datatype AgentStep = AgentWrites | SubmitReturns(failed: bool)

  datatype Step = Env(env: EnvStep) | Body(body: BodyStep) | Queue(queue: QueueStep) | Agent(agent: AgentStep)

  predicate Closed(c: Control) { c.done || c.ctxDone }

  /** The item that `who` is inside `enqueueMsg` with, if any. */
  function Offered(c: Control, who: Who): Option<Item> {
    match who
    case Main =>
      (match c.main
       case EnqAck => Some(Msg(Ack))
       case EnqNack => Some(Msg(Nack))
       case EnqNackEnd => Some(Sentinel)
       case _ => None)
    case Submit =>
      (match c.submit
       case EnqFail => Some(Msg(Finished(false)))
       case EnqEof => Some(Msg(EofFrame))
       case EnqFinish => Some(Msg(Finished(true)))
       case EnqEnd => Some(Sentinel)
       case _ => None)
    case Writer =>
      (match c.writer
       case EnqStart => Some(Msg(ResultStart))
       case EnqData => Some(Msg(DataFrame))
       case NoWrite => None)
  }

  predicate Parked(c: Control, who: Who) {
    match who case Main => c.mainParked case Submit => c.submitParked case Writer => c.writerParked
  }

  /** After a successful enqueue. */
  function AfterOk(c: Control, who: Who): Control
    requires Offered(c, who).Some?
  {
    match who
    case Main =>
      c.(mainParked := false,
         main := if c.main.EnqAck? then AwaitData else if c.main.EnqNack? then EnqNackEnd else AwaitEnd)
    case Submit =>
      c.(submitParked := false,
         submit := match c.submit
           case EnqEof => EnqFinish
           case EnqEnd => Ended
           case _ => EnqEnd)
    case Writer => c.(writerParked := false, writer := if c.writer.EnqStart? then EnqData else NoWrite)
  }

  /** The program point after an enqueue that returned io.EOF: a failed response
      goes on to the next enqueue; a failed `Write` goes back to the agent. */
  function MainAfterError(pc: MainPc): MainPc {
    if pc.EnqAck? || pc.EnqNack? || pc.EnqNackEnd? then AwaitEnd else pc
  }

  function SubmitAfterError(pc: SubmitPc): SubmitPc {
    match pc
    case EnqFail => EnqEnd
    case EnqEof => EnqFinish
    case EnqFinish => EnqEnd
    case EnqEnd => Ended
    case _ => pc
  }

  /** Closing a watched channel wakes every parked select with that case. */
  function WakeAll(c: Control): Control {
    c.(sender := if c.sender.SParked? then SExit else c.sender,
       main := if c.mainParked then MainAfterError(c.main) else c.main,
       mainParked := false,
       submit := if c.submitParked then SubmitAfterError(c.submit) else c.submit,
       submitParked := false,
       writer := if c.writerParked then NoWrite else c.writer,
       writerParked := false)
  }

  /** `shutdown`: once only, close doneQueue. */
  function Shutdown(c: Control): Control {
    if c.done then c else WakeAll(c.(done := true))
  }

  /** `enqueueMsg` returned io.EOF; all callers but `Write` then shut down. */
  function AfterError(c: Control, who: Who): Control
    requires Offered(c, who).Some?
  {
    match who
    case Main => Shutdown(c.(main := MainAfterError(c.main), mainParked := false))
    case Submit => Shutdown(c.(submit := SubmitAfterError(c.submit), submitParked := false))
    case Writer => c.(writer := NoWrite, writerParked := false)
  }

  predicate EnvEnabled(e: State, step: EnvStep) {
    match step
    case Receive(_) => e.hand.None? && !e.inClosed
    case ReceiverEnds(_) => !e.inClosed
    case CancelCtx => true
    case PipeFails => !e.ctl.submit.NotSpawned?
  }

  function ApplyEnv(e: State, step: EnvStep): State {
    match step
    case Receive(m) => e.(hand := Some(m))
    case ReceiverEnds(clean) => e.(inClosed := true, hand := None, ctl := if clean then e.ctl else Shutdown(e.ctl))
    case CancelCtx => e.(ctl := WakeAll(e.ctl.(ctxDone := true)))
    case PipeFails => e.(ctl := Shutdown(e.ctl))
  }

  predicate BodyEnabled(e: State, step: BodyStep) {
    match step
    case MainTakes => e.hand.Some? && (e.ctl.main.AwaitTry? || e.ctl.main.AwaitData?)
    case MainGivesUp => (Closed(e.ctl) || e.inClosed) && (e.ctl.main.AwaitTry? || e.ctl.main.AwaitData?)
    case Answer(_, _) => e.ctl.main.HandleTry?
    case FeedPipe => e.ctl.main.Feed?
    case FeedAborted => e.ctl.main.Feed? && Closed(e.ctl)
    case MainReturns => e.ctl.main.AwaitEnd? && Closed(e.ctl)
  }

  /** `getTryMsg` and `getDataMsg`: an unexpected message ends the session, a
      try is handled, a data frame is fed on; the first frame starts `agent.Submit`. */
  function Take(e: State): State
    requires BodyEnabled(e, MainTakes)
  {
    var c := e.ctl;
    if c.main.AwaitTry? && e.hand.value.Try? then
      e.(hand := None, ctl := c.(main := HandleTry))
    else if c.main.AwaitData? && e.hand.value.Data? then
      var first := c.submit.NotSpawned?;
      e.(hand := None, gotData := true,
         submits := if first then e.submits + 1 else e.submits,
         ctl := c.(main := Feed(e.hand.value.eof), submit := if first then Running else c.submit))
    else
      e.(hand := None, ctl := Shutdown(c.(main := AwaitEnd)))
  }

  /** `handleTryCall` and the choice of the acknowledgement. */
  function Respond(e: State, outcome: TryOutcome, units: nat): State {
    match outcome
    case Accepted => e.(ctl := e.ctl.(main := EnqAck), accepted := true, reserved := units)
    case NoCall => e.(ctl := e.ctl.(main := EnqNack), reserved := units)
    case _ => e.(ctl := e.ctl.(main := EnqNack))
  }

  function ApplyBody(e: State, step: BodyStep): State
    requires BodyEnabled(e, step)
  {
    match step
    case MainTakes => Take(e)
    case MainGivesUp => e.(ctl := Shutdown(e.ctl.(main := AwaitEnd)))
    case Answer(outcome, units) => Respond(e, outcome, units)
    case FeedPipe => e.(ctl := e.ctl.(main := if e.ctl.main.last then AwaitEnd else AwaitData))
    case FeedAborted => e.(ctl := e.ctl.(main := AwaitEnd))
    case MainReturns => e.(ctl := e.ctl.(main := Returned), reserved := 0)
  }

  predicate QueueEnabled(e: State, step: QueueStep) {
    var c := e.ctl;
    match step
    case Meet(who) =>
      && Offered(c, who).Some?
      && (if Parked(c, who) then c.sender.SPoll? else c.sender.SParked?)
    case EnqueueFails(who) => Offered(c, who).Some? && !Parked(c, who) && Closed(c)
    case EnqueueParks(who) => Offered(c, who).Some? && !Parked(c, who) && !Closed(c) && !c.sender.SParked?
    case SenderStops => c.sender.SPoll? && Closed(c)
    case SenderParks => c.sender.SPoll? && !Closed(c) && !c.mainParked && !c.submitParked && !c.writerParked
    case SenderSends(_) => c.sender.SSending?
  }

  /** The sender has an item in hand: it sends it, or stops on the sentinel or a failed send. */
  function Send(e: State, ok: bool): State
    requires e.ctl.sender.SSending?
  {
    var stopped := Shutdown(e.ctl.(sender := SExit));
    match e.ctl.sender.item
    case Sentinel => e.(ctl := stopped)
    case Msg(m) => e.(wire := e.wire + [m], ctl := if ok then e.ctl.(sender := SPoll) else stopped)
  }

  function ApplyQueue(e: State, step: QueueStep): State
    requires QueueEnabled(e, step)
  {
    match step
    case Meet(who) => e.(ctl := AfterOk(e.ctl, who).(sender := SSending(Offered(e.ctl, who).value)))
    case EnqueueFails(who) => e.(ctl := AfterError(e.ctl, who))
    case EnqueueParks(who) =>
      e.(ctl := match who
           case Main => e.ctl.(mainParked := true)
           case Submit => e.ctl.(submitParked := true)
           case Writer => e.ctl.(writerParked := true))
    case SenderStops => e.(ctl := e.ctl.(sender := SExit))
    case SenderParks => e.(ctl := e.ctl.(sender := SParked))
    case SenderSends(ok) => Send(e, ok)
  }

  function ApplyAgent(e: State, step: AgentStep): State {
    match step
    case AgentWrites =>
      e.(headerOnce := true, ctl := e.ctl.(writer := if e.headerOnce then EnqData else EnqStart))
    case SubmitReturns(failed) => e.(ctl := e.ctl.(submit := if failed then EnqFail else EnqEof))
  }

  predicate Enabled(e: State, step: Step) {
    match step
    case Env(s) => EnvEnabled(e, s)
    case Body(s) => BodyEnabled(e, s)
    case Queue(s) => QueueEnabled(e, s)
    case Agent(AgentWrites) => !e.ctl.submit.NotSpawned? && e.ctl.writer.NoWrite?
    case Agent(SubmitReturns(_)) => e.ctl.submit.Running?
  }

  /** A write that is still under way when `Submit` returns, or begins after that, while the
      response is not completely queued and the session is open. */
  predicate IsLate(e: State, step: Step) {
    && step.Agent? && !Closed(e.ctl)
    && (if step.agent.AgentWrites? then !e.ctl.submit.Running? && !e.ctl.submit.Ended? else !e.ctl.writer.NoWrite?)
  }

  function Apply(e: State, step: Step): State
    requires Enabled(e, step)
  {
    match step
    case Env(s) => ApplyEnv(e, s)
    case Body(s) => ApplyBody(e, s)
    case Queue(s) => ApplyQueue(e, s)
    case Agent(s) => ApplyAgent(e, s)
  }

  // ---------------------------------------------------------------- transcript

  /** A complete transcript of an accepted engagement. */
  function Transcript(started: bool, frames: nat, success: bool): seq<RunnerMsg> {
    [Ack]
    + (if started then [ResultStart] + seq(frames, _ => DataFrame) else [])
    + (if success then [EofFrame, Finished(true)] else [Finished(false)])
  }

  /** What the load balancer may see: a cut-off refusal or a cut-off transcript. */
  ghost predicate Legal(w: seq<RunnerMsg>) {
    || w <= [Nack]
    || exists started, frames, success :: w <= Transcript(started, frames, success)
  }

  datatype Phase = Fresh | Refused | Agreed | Streaming | AllSent | Over | Bad

  function Advance(p: Phase, m: RunnerMsg): Phase {
    match (p, m)
    case (Fresh, Nack) => Refused
    case (Fresh, Ack) => Agreed
    case (Agreed, ResultStart) => Streaming
    case (Streaming, DataFrame) => Streaming
    case (Agreed, EofFrame) => AllSent
    case (Streaming, EofFrame) => AllSent
    case (Agreed, Finished(false)) => Over
    case (Streaming, Finished(false)) => Over
    case (AllSent, Finished(true)) => Over
    case _ => Bad
  }

  function PhaseOf(w: seq<RunnerMsg>): Phase {
    if |w| == 0 then Fresh else Advance(PhaseOf(w[..|w| - 1]), w[|w| - 1])
  }

  lemma {:induction false} PhaseSnoc(w: seq<RunnerMsg>, m: RunnerMsg)
    ensures PhaseOf(w + [m]) == Advance(PhaseOf(w), m)
  {
    assert (w + [m])[..|w|] == w;
  }

  /** The messages already pulled out of `outQueue`, including the one in hand. */
  function Taken(e: State): seq<RunnerMsg> {
    if e.ctl.sender.SSending? && e.ctl.sender.item.Msg? then e.wire + [e.ctl.sender.item.m] else e.wire
  }

  /** Once a channel is closed nobody waits on `outQueue`, so nothing enters it any more. */
  predicate NobodyParkedOnceClosed(c: Control) {
    && (Closed(c) || c.sender.SParked? ==> !c.mainParked && !c.submitParked && !c.writerParked)
    && (Closed(c) ==> !c.sender.SParked?)
    && ParkedOffer(c)
  }

  predicate ParkedOffer(c: Control) {
    && (c.mainParked ==> Offered(c, Main).Some?)
    && (c.submitParked ==> Offered(c, Submit).Some?)
    && (c.writerParked ==> Offered(c, Writer).Some?)
  }

  predicate SentinelInv(c: Control) {
    c.sender == SSending(Sentinel) ==>
      c.submit.Ended? || (c.submit.NotSpawned? && (c.main.AwaitEnd? || c.main.Returned?))
  }

  /** Who holds the end of the session: only the response or a refusal queues the sentinel, and an
      open session has a sender. */
  predicate SenderInv(c: Control) {
    && SentinelInv(c)
    && (!Closed(c) && c.submit.Ended? ==> c.sender == SSending(Sentinel))
    && (c.sender.SExit? ==> Closed(c))
  }

  /** Without late writes nothing is being written once `Submit` returned, as long as it matters. */
  predicate WriterInv(c: Control) {
    !Closed(c) && !c.submit.Running? && !c.submit.Ended? ==> c.writer.NoWrite?
  }

  /** The phase that the program points promise while the channels are open. */
  predicate PhaseMatches(c: Control, headerOnce: bool, p: Phase) {
    && (c.main.AwaitTry? || c.main.HandleTry? || c.main.EnqAck? || c.main.EnqNack? ==> p == Fresh)
    && (c.main.AwaitData? && c.submit.NotSpawned? ==> p == Agreed)
    && (match c.submit
        case Running => p == if headerOnce && !c.writer.EnqStart? then Streaming else Agreed
        case EnqFail => p == Agreed || p == Streaming
        case EnqEof => p == Agreed || p == Streaming
        case EnqFinish => p == AllSent
        case EnqEnd => p == Over
        case Ended => p == Over
        case NotSpawned => true)
  }

  /** `Submit` starts once, after a data frame, in an engagement that was accepted. */
  predicate Structure(e: State) {
    var c := e.ctl;
    && (c.submit.NotSpawned? ==> e.submits == 0 && !e.headerOnce)
    && (!c.submit.NotSpawned? ==> e.submits == 1 && e.gotData && e.accepted)
    && (!c.submit.NotSpawned? ==> c.main.AwaitData? || c.main.Feed? || c.main.AwaitEnd? || c.main.Returned?)
    && (c.main.EnqAck? || c.main.AwaitData? || c.main.Feed? ==> e.accepted)
    && (c.main.AwaitTry? || c.main.HandleTry? || c.main.Returned? ==> e.reserved == 0)
    && (c.main.Feed? ==> !c.submit.NotSpawned?)
    && (!c.writer.NoWrite? ==> e.headerOnce)
  }

  /** The invariant, with the phase of the messages taken so far as a parameter. */
  predicate InvAt(e: State, p: Phase) {
    && NobodyParkedOnceClosed(e.ctl)
    && Structure(e) && SenderInv(e.ctl) && WriterInv(e.ctl)
    && p != Bad
    && (!Closed(e.ctl) ==> PhaseMatches(e.ctl, e.headerOnce, p))
  }

  ghost predicate Inv(e: State) { InvAt(e, PhaseOf(Taken(e))) }

  /** Shutting down wakes everybody and moves nobody forward into the queue. */
  lemma ShutdownKeepsInv(e: State, c: Control, p: Phase)
    requires Structure(e.(ctl := c)) && p != Bad && ParkedOffer(c)
    requires SentinelInv(c)
    requires c.done ==> NobodyParkedOnceClosed(c)
    ensures InvAt(e.(ctl := Shutdown(c)), p)
    ensures Taken(e.(ctl := Shutdown(c))) == Taken(e.(ctl := c))
  {
  }

  lemma MeetKeepsInv(e: State, who: Who, p: Phase)
    requires InvAt(e, p) && QueueEnabled(e, Meet(who))
    ensures var item := Offered(e.ctl, who).value;
            InvAt(ApplyQueue(e, Meet(who)), if item.Msg? then Advance(p, item.m) else p)
    ensures Taken(e) == e.wire
  {
    // A meeting needs a parked end, and parked ends exist only while the channels are open.
    assert !Closed(e.ctl);
  }

  lemma EnqueueFailsKeepsInv(e: State, who: Who, p: Phase)
    requires InvAt(e, p) && QueueEnabled(e, EnqueueFails(who))
    ensures InvAt(ApplyQueue(e, EnqueueFails(who)), p)
    ensures Taken(ApplyQueue(e, EnqueueFails(who))) == Taken(e)
  {
    match who
    case Main => ShutdownKeepsInv(e, e.ctl.(main := MainAfterError(e.ctl.main), mainParked := false), p);
    case Submit => ShutdownKeepsInv(e, e.ctl.(submit := SubmitAfterError(e.ctl.submit), submitParked := false), p);
    case Writer =>
  }

  lemma SendKeepsInv(e: State, ok: bool, p: Phase)
    requires InvAt(e, p) && e.ctl.sender.SSending?
    ensures InvAt(Send(e, ok), p)
    ensures Taken(Send(e, ok)) == Taken(e)
  {
    if ok && e.ctl.sender.item.Msg? {
      SentKeepsInv(e, p);
    } else {
      ShutdownKeepsInv(e, e.ctl.(sender := SExit), p);
    }
  }

  lemma SentKeepsInv(e: State, p: Phase)
    requires InvAt(e, p) && e.ctl.sender.SSending? && e.ctl.sender.item.Msg?
    ensures InvAt(Send(e, true), p)
    ensures Taken(Send(e, true)) == Taken(e)
  {
  }

  lemma WaitKeepsInv(e: State, step: QueueStep, p: Phase)
    requires InvAt(e, p) && QueueEnabled(e, step)
    requires step.EnqueueParks? || step.SenderStops? || step.SenderParks?
    ensures InvAt(ApplyQueue(e, step), p)
    ensures Taken(ApplyQueue(e, step)) == Taken(e)
  {
  }

  lemma QueueKeepsInv(e: State, step: QueueStep)
    requires Inv(e) && QueueEnabled(e, step)
    ensures Inv(ApplyQueue(e, step))
  {
    var p := PhaseOf(Taken(e));
    match step
    case Meet(who) =>
      MeetKeepsInv(e, who, p);
      var item := Offered(e.ctl, who).value;
      if item.Msg? { PhaseSnoc(e.wire, item.m); }
    case EnqueueFails(who) => EnqueueFailsKeepsInv(e, who, p);
    case SenderSends(ok) => SendKeepsInv(e, ok, p);
    case _ => WaitKeepsInv(e, step, p);
  }

  lemma ExpectedKeepsInv(e: State, p: Phase)
    requires InvAt(e, p) && BodyEnabled(e, MainTakes) && e.ctl.main.AwaitTry? == e.hand.value.Try?
    ensures InvAt(Take(e), p)
    ensures Taken(Take(e)) == Taken(e)
  {
  }

  lemma TakeKeepsInv(e: State, p: Phase)
    requires InvAt(e, p) && BodyEnabled(e, MainTakes)
    ensures InvAt(Take(e), p)
    ensures Taken(Take(e)) == Taken(e)
  {
    if e.ctl.main.AwaitTry? == e.hand.value.Try? {
      ExpectedKeepsInv(e, p);
    } else {
      ShutdownKeepsInv(e.(hand := None), e.ctl.(main := AwaitEnd), p);
    }
  }

  lemma RespondKeepsInv(e: State, outcome: TryOutcome, units: nat, p: Phase)
    requires InvAt(e, p) && e.ctl.main.HandleTry?
    ensures InvAt(Respond(e, outcome, units), p)
    ensures Taken(Respond(e, outcome, units)) == Taken(e)
  {
  }

  lemma BodyKeepsInv(e: State, step: BodyStep, p: Phase)
    requires InvAt(e, p) && BodyEnabled(e, step)
    ensures InvAt(ApplyBody(e, step), p)
    ensures Taken(ApplyBody(e, step)) == Taken(e)
  {
    match step
    case MainTakes => TakeKeepsInv(e, p);
    case MainGivesUp => ShutdownKeepsInv(e, e.ctl.(main := AwaitEnd), p);
    case Answer(outcome, units) => RespondKeepsInv(e, outcome, units, p);
    case _ =>
  }

  lemma EnvKeepsInv(e: State, step: EnvStep, p: Phase)
    requires InvAt(e, p) && EnvEnabled(e, step)
    ensures InvAt(ApplyEnv(e, step), p)
    ensures Taken(ApplyEnv(e, step)) == Taken(e)
  {
    match step
    case CancelCtx =>
    case Receive(m) =>
    case _ => ShutdownKeepsInv(e, e.ctl, p);
  }

  lemma AgentKeepsInv(e: State, step: AgentStep, p: Phase)
    requires InvAt(e, p) && Enabled(e, Agent(step)) && !IsLate(e, Agent(step))
    ensures InvAt(ApplyAgent(e, step), p)
    ensures Taken(ApplyAgent(e, step)) == Taken(e)
  {
  }

  /** Every step keeps the invariant, unless it is a late write. */
  lemma StepKeepsInv(e: State, step: Step)
    requires Inv(e) && Enabled(e, step) && !IsLate(e, step)
    ensures Inv(Apply(e, step))
  {
    var p := PhaseOf(Taken(e));
    match step
    case Env(s) => EnvKeepsInv(e, s, p);
    case Body(s) => BodyKeepsInv(e, s, p);
    case Agent(s) => AgentKeepsInv(e, s, p);
    case Queue(s) => QueueKeepsInv(e, s);
  }

  // ---------------------------------------------------------------------- runs

  /** A run of one engagement: every interleaving of its goroutines and its environment. */
  ghost predicate IsRun(run: seq<State>, steps: seq<Step>) {
    && |run| == |steps| + 1
    && run[0] == INITIAL
    && forall i :: 0 <= i < |steps| ==> Enabled(run[i], steps[i]) && run[i + 1] == Apply(run[i], steps[i])
  }

  /** No write outlives `Submit` in a way that matters. */
  ghost predicate NoLateWrite(run: seq<State>, steps: seq<Step>, n: nat)
    requires IsRun(run, steps) && n <= |steps|
  {
    forall i :: 0 <= i < n ==> !IsLate(run[i], steps[i])
  }

  lemma {:induction false} RunKeepsInv(run: seq<State>, steps: seq<Step>, n: nat)
    requires IsRun(run, steps) && n < |run| && NoLateWrite(run, steps, n)
    ensures Inv(run[n])
  {
    if n > 0 {
      RunKeepsInv(run, steps, n - 1);
      StepKeepsInv(run[n - 1], steps[n - 1]);
    }
  }

  // ------------------------------------------------- what holds with late writes too

  lemma WakeKeepsStructure(e: State, c: Control)
    requires Structure(e.(ctl := c))
    ensures Structure(e.(ctl := WakeAll(c)))
  {
  }

  lemma ShutdownKeepsStructure(e: State, c: Control)
    requires Structure(e.(ctl := c))
    ensures Structure(e.(ctl := Shutdown(c)))
  {
    hide WakeAll;
    assert Structure(e.(ctl := c.(done := true)));
    WakeKeepsStructure(e, c.(done := true));
  }

  /** `Submit` starts at most once and only after data in an accepted engagement, late writes or not. */
  lemma StepKeepsStructure(e: State, step: Step)
    requires Structure(e) && Enabled(e, step)
    ensures Structure(Apply(e, step))
  {
    hide Structure, ApplyEnv, ApplyBody, ApplyQueue, ApplyAgent, EnvEnabled, BodyEnabled, QueueEnabled;
    match step
    case Env(s) => EnvKeepsStructure(e, s);
    case Body(s) => BodyKeepsStructure(e, s);
    case Agent(s) => AgentKeepsStructure(e, s);
    case Queue(s) => QueueKeepsStructure(e, s);
  }

  lemma EnvKeepsStructure(e: State, step: EnvStep)
    requires Structure(e) && EnvEnabled(e, step)
    ensures Structure(ApplyEnv(e, step))
  {
    hide WakeAll, Shutdown;
    match step
    case CancelCtx => WakeKeepsStructure(e, e.ctl.(ctxDone := true));
    case Receive(_) =>
    case _ => ShutdownKeepsStructure(e, e.ctl);
  }

  lemma AgentKeepsStructure(e: State, step: AgentStep)
    requires Structure(e) && Enabled(e, Agent(step))
    ensures Structure(ApplyAgent(e, step))
  {
  }

  lemma BodyKeepsStructure(e: State, step: BodyStep)
    requires Structure(e) && BodyEnabled(e, step)
    ensures Structure(ApplyBody(e, step))
  {
    hide WakeAll, Shutdown, Take, Respond;
    match step
    case MainTakes => TakeKeepsStructure(e);
    case MainGivesUp => ShutdownKeepsStructure(e, e.ctl.(main := AwaitEnd));
    case Answer(outcome, units) => RespondKeepsStructure(e, outcome, units);
    case _ =>
  }

  lemma RespondKeepsStructure(e: State, outcome: TryOutcome, units: nat)
    requires Structure(e) && e.ctl.main.HandleTry?
    ensures Structure(Respond(e, outcome, units))
  {
  }

  lemma TakeKeepsStructure(e: State)
    requires Structure(e) && BodyEnabled(e, MainTakes)
    ensures Structure(Take(e))
  {
    hide WakeAll, Shutdown;
    ShutdownKeepsStructure(e.(hand := None), e.ctl.(main := AwaitEnd));
  }

  lemma QueueKeepsStructure(e: State, step: QueueStep)
    requires Structure(e) && QueueEnabled(e, step)
    ensures Structure(ApplyQueue(e, step))
  {
    match step
    case Meet(who) => MeetKeepsStructure(e, who);
    case EnqueueFails(who) => FailKeepsStructure(e, who);
    case SenderSends(ok) => SendKeepsStructure(e, ok);
    case _ =>
  }

  lemma MeetKeepsStructure(e: State, who: Who)
    requires Structure(e) && Offered(e.ctl, who).Some?
    ensures Structure(e.(ctl := AfterOk(e.ctl, who).(sender := SSending(Offered(e.ctl, who).value))))
  {
  }

  lemma SendKeepsStructure(e: State, ok: bool)
    requires Structure(e) && e.ctl.sender.SSending?
    ensures Structure(Send(e, ok))
  {
    hide WakeAll, Shutdown;
    ShutdownKeepsStructure(e, e.ctl.(sender := SExit));
  }

  lemma FailKeepsStructure(e: State, who: Who)
    requires Structure(e) && Offered(e.ctl, who).Some?
    ensures Structure(e.(ctl := AfterError(e.ctl, who)))
  {
    hide WakeAll, Shutdown;
    match who
    case Main => ShutdownKeepsStructure(e, e.ctl.(main := MainAfterError(e.ctl.main), mainParked := false));
    case Submit => ShutdownKeepsStructure(e, e.ctl.(submit := SubmitAfterError(e.ctl.submit), submitParked := false));
    case Writer =>
  }

  // ------------------------------------------------------------------------ transcripts

  /** Reading a phase back as an explicit shape of the word. */
  lemma {:induction false} PhaseShape(w: seq<RunnerMsg>)
    requires PhaseOf(w) != Bad
    ensures match PhaseOf(w)
            case Fresh => w == []
            case Refused => w == [Nack]
            case Agreed => w == [Ack]
            case Streaming => |w| >= 2 && w == [Ack, ResultStart] + seq(|w| - 2, _ => DataFrame)
            case AllSent => exists started, frames :: w + [Finished(true)] == Transcript(started, frames, true)
            case Over => exists started, frames, success :: w == Transcript(started, frames, success)
            case Bad => false
  {
    if |w| > 0 {
      var v, m := w[..|w| - 1], w[|w| - 1];
      assert w == v + [m];
      PhaseShape(v);
      match PhaseOf(v)
      case Fresh =>
      case Refused =>
      case Over =>
      case Agreed =>
        if m == EofFrame {
          assert w + [Finished(true)] == Transcript(false, 0, true);
        } else if m == Finished(false) {
          assert w == Transcript(false, 0, false);
        }
      case Streaming =>
        if m == EofFrame {
          assert w + [Finished(true)] == Transcript(true, |v| - 2, true);
        } else if m == Finished(false) {
          assert w == Transcript(true, |v| - 2, false);
        }
      case AllSent =>
    }
  }

  lemma PhaseIsLegal(w: seq<RunnerMsg>)
    requires PhaseOf(w) != Bad
    ensures Legal(w)
  {
    PhaseShape(w);
    match PhaseOf(w)
    case Fresh =>
    case Refused =>
    case Agreed => assert w <= Transcript(false, 0, true);
    case Streaming => assert w <= Transcript(true, |w| - 2, true);
    case AllSent =>
      var started, frames :| w + [Finished(true)] == Transcript(started, frames, true);
      assert w <= Transcript(started, frames, true);
    case Over =>
  }

  lemma {:induction false} BadStaysBad(w: seq<RunnerMsg>, v: seq<RunnerMsg>)
    requires w <= v && PhaseOf(w) == Bad
    ensures PhaseOf(v) == Bad
    decreases |v|
  {
    if |w| < |v| {
      BadStaysBad(w, v[..|v| - 1]);
    } else {
      assert w == v;
    }
  }

  lemma {:induction false} FramesStream(frames: nat)
    ensures PhaseOf([Ack, ResultStart] + seq(frames, _ => DataFrame)) == Streaming
  {
    var w := [Ack, ResultStart] + seq(frames, _ => DataFrame);
    if frames == 0 {
      assert w == [] + [Ack] + [ResultStart];
      PhaseSnoc([], Ack);
      PhaseSnoc([] + [Ack], ResultStart);
    } else {
      FramesStream(frames - 1);
      assert w[..|w| - 1] == [Ack, ResultStart] + seq(frames - 1, _ => DataFrame);
    }
  }

  lemma TranscriptIsOver(started: bool, frames: nat, success: bool)
    ensures PhaseOf(Transcript(started, frames, success)) == Over
  {
    var head := if started then [Ack, ResultStart] + seq(frames, _ => DataFrame) else [Ack];
    FramesStream(frames);
    PhaseSnoc([], Ack);
    assert [] + [Ack] == [Ack];
    if success {
      assert Transcript(started, frames, success) == head + [EofFrame] + [Finished(true)];
      PhaseSnoc(head, EofFrame);
      PhaseSnoc(head + [EofFrame], Finished(true));
    } else {
      assert Transcript(started, frames, success) == head + [Finished(false)];
      PhaseSnoc(head, Finished(false));
    }
  }

  /** The automaton refuses exactly the sequences that are no prefix of a transcript. */
  lemma LegalIffNotBad(w: seq<RunnerMsg>)
    ensures Legal(w) <==> PhaseOf(w) != Bad
  {
    if PhaseOf(w) == Bad {
      PhaseSnoc([], Nack);
      assert [] + [Nack] == [Nack];
      if w <= [Nack] { BadStaysBad(w, [Nack]); }
      forall started, frames, success ensures !(w <= Transcript(started, frames, success)) {
        TranscriptIsOver(started, frames, success);
        if w <= Transcript(started, frames, success) { BadStaysBad(w, Transcript(started, frames, success)); }
      }
    } else {
      PhaseIsLegal(w);
    }
  }

  /** Whatever the agent, the network and the scheduler do, without a late write the load balancer
      reads a cut-off of one legal transcript. */
  lemma WireIsAlwaysLegal(run: seq<State>, steps: seq<Step>, n: nat)
    requires IsRun(run, steps) && n < |run| && NoLateWrite(run, steps, n)
    ensures Legal(run[n].wire)
  {
    RunKeepsInv(run, steps, n);
    InvIsLegal(run[n]);
  }

  lemma InvIsLegal(e: State)
    requires Inv(e)
    ensures Legal(e.wire)
  {
    if Taken(e) != e.wire {
      PhaseSnoc(e.wire, e.ctl.sender.item.m);
    }
    PhaseIsLegal(e.wire);
  }

  // ------------------------------------------------------------------------ late writes

  /** A continuation without late writes. */
  predicate Path(e: State, steps: seq<Step>, e': State)
    decreases |steps|
  {
    if steps == [] then e == e'
    else Enabled(e, steps[0]) && !IsLate(e, steps[0]) && Path(Apply(e, steps[0]), steps[1..], e')
  }

  lemma {:induction false} PathJoin(e: State, a: seq<Step>, m: State, b: seq<Step>, e': State)
    requires Path(e, a, m) && Path(m, b, e')
    ensures Path(e, a + b, e')
    decreases |a|
  {
    hide Apply, Enabled, IsLate;
    if a == [] {
      assert a + b == b;
    } else {
      assert (a + b)[1..] == a[1..] + b;
      PathJoin(Apply(e, a[0]), a[1..], m, b, e');
    }
  }

  lemma PathStep(e: State, steps: seq<Step>, m: State, q: QueueStep)
    requires Path(e, steps, m) && QueueEnabled(m, q)
    ensures Path(e, steps + [Queue(q)], ApplyQueue(m, q))
  {
    hide QueueEnabled, ApplyQueue;
    assert [Queue(q)][1..] == [];
    assert Path(m, [Queue(q)], ApplyQueue(m, q));
    PathJoin(e, steps, m, [Queue(q)], ApplyQueue(m, q));
  }

  lemma {:induction false} PathKeepsInv(e: State, steps: seq<Step>, e': State)
    requires Inv(e) && Path(e, steps, e')
    ensures Inv(e')
    decreases |steps|
  {
    hide Apply, Enabled, IsLate, Inv;
    if steps != [] {
      StepKeepsInv(e, steps[0]);
      PathKeepsInv(Apply(e, steps[0]), steps[1..], e');
    }
  }

  ghost predicate CanGoWrong(e: State) { exists steps, e' :: Path(e, steps, e') && !Legal(e'.wire) }

  /** An open session whose sender has nothing in hand that would end it. */
  predicate Pumping(c: Control) {
    && !Closed(c) && !c.sender.SExit? && c.sender != SSending(Sentinel)
    && (c.sender.SParked? ==> !c.mainParked && !c.submitParked && !c.writerParked)
  }

  /** The sender is back at its select, with what it held on the wire. */
  lemma Emptied(e: State) returns (steps: seq<Step>, e': State)
    requires Pumping(e.ctl)
    ensures Path(e, steps, e') && Pumping(e'.ctl) && !e'.ctl.sender.SSending?
    ensures e' == e.(wire := Taken(e), ctl := e.ctl.(sender := e'.ctl.sender))
  {
    steps, e' := [], e;
    if e.ctl.sender.SSending? {
      PathStep(e, [], e, SenderSends(true));
      steps, e' := [] + [Queue(SenderSends(true))], ApplyQueue(e, SenderSends(true));
    }
  }

  /** Waiting if need be, so that the sender and `who` can meet. */
  lemma Ready(e: State, who: Who) returns (steps: seq<Step>, e': State)
    requires Pumping(e.ctl) && !e.ctl.sender.SSending? && Offered(e.ctl, who).Some?
    ensures Path(e, steps, e') && QueueEnabled(e', Meet(who)) && !Closed(e'.ctl)
    ensures e' == e.(ctl := e'.ctl) && Offered(e'.ctl, who) == Offered(e.ctl, who)
    ensures AfterOk(e'.ctl, who) == AfterOk(e.ctl, who)
  {
    steps, e' := [], e;
    if !Parked(e.ctl, who) && e.ctl.sender.SPoll? {
      PathStep(e, [], e, EnqueueParks(who));
      steps, e' := [] + [Queue(EnqueueParks(who))], ApplyQueue(e, EnqueueParks(who));
    }
  }

  lemma Passed(e: State, who: Who) returns (steps: seq<Step>, e': State)
    requires QueueEnabled(e, Meet(who)) && Offered(e.ctl, who).value.Msg? && !Closed(e.ctl)
    ensures Path(e, steps, e')
    ensures e' == e.(wire := e.wire + [Offered(e.ctl, who).value.m], ctl := AfterOk(e.ctl, who).(sender := SPoll))
  {
    hide Path;
    EmptyPath(e);
    var m := ApplyQueue(e, Meet(who));
    PathStep(e, [], e, Meet(who));
    PathStep(e, [] + [Queue(Meet(who))], m, SenderSends(true));
    steps, e' := [] + [Queue(Meet(who))] + [Queue(SenderSends(true))], ApplyQueue(m, SenderSends(true));
  }

  lemma EmptyPath(e: State)
    ensures Path(e, [], e)
  {
  }

  /** Whoever offers a message in an open session can be the next to get it through. */
  lemma Delivered(e: State, who: Who) returns (steps: seq<Step>, e': State)
    requires Pumping(e.ctl) && Offered(e.ctl, who).Some? && Offered(e.ctl, who).value.Msg?
    ensures Path(e, steps, e') && Pumping(e'.ctl)
    ensures e' == e.(wire := Taken(e) + [Offered(e.ctl, who).value.m], ctl := AfterOk(e.ctl, who).(sender := SPoll))
  {
    var a, e1 := Emptied(e);
    SenderDoesNotMatter(e.ctl, who, e1.ctl.sender);
    StillOpen(e.ctl, who);
    hide Path, Taken, QueueEnabled, AfterOk, Offered;
    var b, e2 := Ready(e1, who);
    var c, e3 := Passed(e2, who);
    PathJoin(e, a, e1, b, e2);
    PathJoin(e, a + b, e2, c, e3);
    steps, e' := a + b + c, e3;
  }

  lemma SenderDoesNotMatter(c: Control, who: Who, pc: SenderPc)
    requires Offered(c, who).Some?
    ensures Offered(c.(sender := pc), who) == Offered(c, who)
    ensures AfterOk(c.(sender := pc), who) == AfterOk(c, who).(sender := pc)
  {
  }

  lemma StillOpen(c: Control, who: Who)
    requires Pumping(c) && Offered(c, who).Some?
    ensures Pumping(AfterOk(c, who).(sender := SPoll))
  {
  }

  predicate TooLate(p: Phase) { p.AllSent? || p.Over? || p.Bad? }

  /** A pending write behind the end of the response comes out as an illegal message. */
  lemma WriteTooLate(e: State) returns (steps: seq<Step>, e': State)
    requires Pumping(e.ctl) && !e.ctl.writer.NoWrite? && TooLate(PhaseOf(Taken(e)))
    ensures Path(e, steps, e') && !Legal(e'.wire)
  {
    hide Path, Legal, PhaseOf, AfterOk, Taken;
    steps, e' := Delivered(e, Writer);
    var m := Offered(e.ctl, Writer).value.m;
    PhaseSnoc(Taken(e), m);
    LegalIffNotBad(e'.wire);
  }

  /** A write is pending while the response is on its way. */
  predicate Doomed(e: State) {
    && Pumping(e.ctl) && !e.ctl.writer.NoWrite?
    && (e.ctl.submit.EnqFail? || e.ctl.submit.EnqEof? || TooLate(PhaseOf(Taken(e))))
  }

  lemma LateIsDoomed(e: State, step: Step)
    requires Inv(e) && Enabled(e, step) && IsLate(e, step)
    ensures Doomed(Apply(e, step))
  {
    assert Taken(Apply(e, step)) == Taken(e);
  }

  lemma DoomedCanGoWrong(e: State)
    requires Doomed(e)
    ensures CanGoWrong(e)
  {
    if e.ctl.submit.EnqFail? || e.ctl.submit.EnqEof? {
      hide Path, Legal, PhaseOf, Taken;
      var m := Offered(e.ctl, Submit).value.m;
      var a, e1 := Delivered(e, Submit);
      PhaseSnoc(Taken(e), m);
      NothingInHand(e1);
      var b, e2 := WriteTooLate(e1);
      PathJoin(e, a, e1, b, e2);
    } else {
      var a, e1 := WriteTooLate(e);
    }
  }

  lemma NothingInHand(e: State)
    requires !e.ctl.sender.SSending?
    ensures Taken(e) == e.wire
  {
  }

  lemma {:induction false} FirstLate(run: seq<State>, steps: seq<Step>, i: nat) returns (k: nat)
    requires IsRun(run, steps) && i < |steps| && IsLate(run[i], steps[i])
    ensures k <= i && IsLate(run[k], steps[k]) && NoLateWrite(run, steps, k)
    decreases i
  {
    hide IsLate;
    if NoLateWrite(run, steps, i) {
      k := i;
    } else {
      var j: nat :| j < i && IsLate(run[j], steps[j]);
      k := FirstLate(run, steps, j);
    }
  }

  /** A run has no late write if and only if nowhere along it the messages can become illegal by
      going on without one. */
  lemma LegalIffNoLateWrite(run: seq<State>, steps: seq<Step>)
    requires IsRun(run, steps)
    ensures NoLateWrite(run, steps, |steps|) <==> forall n :: 0 <= n < |run| ==> !CanGoWrong(run[n])
  {
    hide IsLate, Path, Legal, Apply, Enabled, Inv, Doomed;
    if NoLateWrite(run, steps, |steps|) {
      forall n | 0 <= n < |run| ensures !CanGoWrong(run[n]) {
        RunKeepsInv(run, steps, n);
        forall more, e | Path(run[n], more, e) ensures Legal(e.wire) {
          PathKeepsInv(run[n], more, e);
          InvIsLegal(e);
        }
      }
    } else {
      var i: nat :| i < |steps| && IsLate(run[i], steps[i]);
      var k := FirstLate(run, steps, i);
      RunKeepsInv(run, steps, k);
      assert Enabled(run[k], steps[k]) && run[k + 1] == Apply(run[k], steps[k]);
      LateIsDoomed(run[k], steps[k]);
      DoomedCanGoWrong(run[k + 1]);
    }
  }

  /** An open engagement that was accepted, with the acknowledgement sent. */
  const ACCEPTED: State :=
    State(Control(false, false, SPoll, AwaitData, false, NotSpawned, false, NoWrite, false),
          false, None, false, false, true, 1, 0, [Ack])

  /** The same after the first and last data frame. */
  const SUBMITTING: State :=
    State(Control(false, false, SPoll, Feed(true), false, Running, false, NoWrite, false),
          false, None, false, true, true, 1, 1, [Ack])

  lemma PathOn(e: State, steps: seq<Step>, m: State, step: Step)
    requires Path(e, steps, m) && Enabled(m, step) && !IsLate(m, step)
    ensures Path(e, steps + [step], Apply(m, step))
  {
    hide Enabled, Apply, IsLate;
    assert [step][1..] == [];
    assert Path(m, [step], Apply(m, step));
    PathJoin(e, steps, m, [step], Apply(m, step));
  }

  lemma ReachesAccepted() returns (steps: seq<Step>)
    ensures Path(INITIAL, steps, ACCEPTED)
  {
    hide Path;
    EmptyPath(INITIAL);
    PathOn(INITIAL, [], INITIAL, Env(Receive(Try)));
    var e := Apply(INITIAL, Env(Receive(Try)));
    steps := [] + [Env(Receive(Try))];
    PathOn(INITIAL, steps, e, Body(MainTakes));
    steps, e := steps + [Body(MainTakes)], Apply(e, Body(MainTakes));
    PathOn(INITIAL, steps, e, Body(Answer(Accepted, 1)));
    steps, e := steps + [Body(Answer(Accepted, 1))], Apply(e, Body(Answer(Accepted, 1)));
    var more, e' := Delivered(e, Main);
    assert e'.wire == [] + [Ack] == [Ack];
    PathJoin(INITIAL, steps, e, more, e');
    steps := steps + more;
  }

  /** An engagement can come to submit. */
  lemma ReachesSubmitting() returns (steps: seq<Step>)
    ensures Path(INITIAL, steps, SUBMITTING)
  {
    hide Path;
    var a := ReachesAccepted();
    PathOn(INITIAL, a, ACCEPTED, Env(Receive(Data(true))));
    var e := Apply(ACCEPTED, Env(Receive(Data(true))));
    PathOn(INITIAL, a + [Env(Receive(Data(true)))], e, Body(MainTakes));
    steps := a + [Env(Receive(Data(true)))] + [Body(MainTakes)];
  }

  /** A late write: the call times out while the first write of the response is under way.  Then the
      load balancer can read ACK, a failed Finished, and after that the start of a result. */
  lemma TimeoutDuringWrite() returns (before: seq<Step>, after: seq<Step>, e: State)
    ensures before == [Agent(AgentWrites), Agent(SubmitReturns(true))]
    ensures var late := Apply(Apply(SUBMITTING, before[0]), before[1]);
      && IsLate(Apply(SUBMITTING, before[0]), before[1])
      && Path(late, after, e) && e.wire == [Ack, Finished(false), ResultStart] && !Legal(e.wire)
  {
    before := [Agent(AgentWrites), Agent(SubmitReturns(true))];
    var e0 := Apply(Apply(SUBMITTING, before[0]), before[1]);
    assert Taken(e0) == [Ack];
    ResultAfterFailure();
    hide Path, PhaseOf, Legal, Apply, Taken;
    var a, e1 := Delivered(e0, Submit);
    NothingInHand(e1);
    var b, e2 := Delivered(e1, Writer);
    PathJoin(e0, a, e1, b, e2);
    after, e := a + b, e2;
  }

  lemma ResultAfterFailure()
    ensures [Ack] + [Finished(false)] + [ResultStart] == [Ack, Finished(false), ResultStart]
    ensures !Legal([Ack, Finished(false), ResultStart])
  {
    PhaseSnoc([], Ack);
    assert [] + [Ack] == [Ack];
    PhaseSnoc([Ack], Finished(false));
    PhaseSnoc([Ack] + [Finished(false)], ResultStart);
    LegalIffNotBad([Ack] + [Finished(false)] + [ResultStart]);
  }
}
