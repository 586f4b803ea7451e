/** The hot slot queue: containers offer slots, calls take them, and both race for
    a slot token by compare-and-swap.  One queue, any number of containers and
    calls, every interleaving of their goroutines (including each call's
    dequeuer and the goroutine that watches its context). */
module HotSlots {

  /** Who won the compare-and-swap on `isBusy`. */
  datatype Owner = Nobody | ByContainer | ByCaller(k: nat)

  /** A token together with its slot.  Its id is its position in `State.tokens`:
      `nextId` counts the tokens queued.  Closing a closed channel panics in Go, so
      closings are counted instead of being recorded as a flag. */
  datatype Token = Token(container: nat, owner: Owner, triggers: nat, dones: nat, fatal: bool)

  /** `Queued(t)` has appended token t but not broadcast yet; `Polling(t)` is the
      select loop of `runHotReq`; `Won`, `Removed` and `Signalled` are the points
      inside `acquireSlot` and before `slot.Close`; `Serving(t)` waits for the
      call that took t.  `FailQueued` announces a container that never started. */
  datatype ContainerPc =
    | Starting
    | LoopTop
    | Queued(t: nat)
    | FailQueued(t: nat)
    | Polling(t: nat)
    | KWon(t: nat)
    | KRemoved(t: nat)
    | KSignalled(t: nat)
    | KClosed(t: nat)
    | Serving(t: nat)
    | Exited

  /** `last` is the latest token of the container, -1 before the first. */
  datatype Container = Container(pc: ContainerPc, last: int)

  datatype CallerPc =
    | Waiting
    | Trying(t: nat)
    | Won(t: nat)
    | Removed(t: nat)
    | Holding(t: nat)
    | Ending(t: nat)
    | Closed(t: nat)
    | Left

  /** A call's dequeuer: about to lock, on the condition variable, broadcast to,
      offering the token it saw last in the queue, or ended. */
  datatype DequeuerPc = Look | Asleep | Woken | Offer(t: nat) | Stopped

  datatype Caller = Caller(pc: CallerPc, dq: DequeuerPc, ctxDone: bool, watched: bool)

  datatype State = State(slots: seq<nat>, tokens: seq<Token>, containers: seq<Container>, callers: seq<Caller>)

  datatype ContainerStep =
    | StartFails
    | Starts
    | ShutsDown          // agent or container shutdown seen at the top of the loop
    | QueuesSlot
    | Broadcasts
    | FreezeFails
    | LeavesSelect       // trigger, shutdown, idle timeout or eject: acquireSlot is tried
    | UnfreezeFails
    | RemovesToken
    | ClosesTrigger
    | ClosesDone
    | SeesDone

  datatype CallerStep =
    | TakesOffer
    | TriesToken
    | GivesUp
    | Removes
    | Triggers
    | Executes(fatal: bool)
    | Closes
    | Cancelled
    | WatcherRuns
    | DqLooks
    | DqDrops            // the offered token was triggered, or the context ended

  datatype Step =
    | NewContainer
    | NewCaller
    | ContainerMoves(c: nat, cs: ContainerStep)
    | CallerMoves(k: nat, ks: CallerStep)

  // ------------------------------------------------------------------ queue regions

  /** The lock region of `acquireSlot`: scan from the end, drop the first match. */
  function Remove(slots: seq<nat>, id: nat): seq<nat> {
    if |slots| == 0 then []
    else if slots[|slots| - 1] == id then slots[..|slots| - 1]
    else Remove(slots[..|slots| - 1], id) + [slots[|slots| - 1]]
  }

  predicate Ascending(slots: seq<nat>) {
    forall i, j :: 0 <= i < j < |slots| ==> slots[i] < slots[j]
  }

  lemma {:induction false} RemoveProperties(slots: seq<nat>, id: nat)
    requires Ascending(slots)
    ensures Ascending(Remove(slots, id))
    ensures forall x :: x in Remove(slots, id) <==> x in slots && x != id
  {
    if |slots| > 0 {
      var init, x := slots[..|slots| - 1], slots[|slots| - 1];
      assert slots == init + [x];
      RemoveProperties(init, id);
      forall y | y in init ensures y < x {
        var i :| 0 <= i < |init| && init[i] == y;
        assert slots[i] < slots[|slots| - 1];
      }
      assert forall i :: 0 <= i < |Remove(init, id)| ==> Remove(init, id)[i] in Remove(init, id);
    }
  }

  /** What a scan from the end has found out when it reaches index i, or the start. */
  lemma {:induction false} RemoveFrom(slots: seq<nat>, id: nat, i: int)
    requires -1 <= i < |slots|
    requires forall j :: i < j < |slots| ==> slots[j] != id
    ensures i >= 0 && slots[i] == id ==> Remove(slots, id) == slots[..i] + slots[i + 1..]
    ensures i == -1 ==> Remove(slots, id) == slots
  {
    var n := |slots| - 1;
    if i < n {
      RemoveFrom(slots[..n], id, i);
      assert slots == slots[..n] + [slots[n]];
    }
  }

  function Wake(w: Caller): Caller { if w.dq.Asleep? then w.(dq := Woken) else w }

  function WakeAll(callers: seq<Caller>): seq<Caller> {
    seq(|callers|, i requires 0 <= i < |callers| => Wake(callers[i]))
  }

  /** `slotQueue`: the fields the lock protects. */
  class SlotQueue {
    var slots: seq<nat>
    var nextId: nat

    constructor ()
      ensures slots == [] && nextId == 0
    {
      slots, nextId := [], 0;
    }

    /** The lock region of `queueSlot`. */
    method QueueSlot() returns (id: nat)
      requires Ascending(slots) && forall x :: x in slots ==> x < nextId
      modifies this
      ensures id == old(nextId) && nextId == id + 1 && slots == old(slots) + [id]
      ensures Ascending(slots) && forall x :: x in slots ==> x < nextId
    {
      id := nextId;
      assert forall i :: 0 <= i < |slots| ==> slots[i] in slots;
      slots := slots + [id];
      nextId := nextId + 1;
    }

    /** The lock region of `acquireSlot`. */
    method RemoveLocked(id: nat)
      modifies this`slots
      ensures slots == Remove(old(slots), id)
    {
      var i := |slots| - 1;
      while i >= 0
        invariant -1 <= i < |slots| && slots == old(slots)
        invariant forall j :: i < j < |slots| ==> slots[j] != id
      {
        if slots[i] == id {
          RemoveFrom(slots, id, i);
          slots := slots[..i] + slots[i + 1..];
          return;
        }
        i := i - 1;
      }
      RemoveFrom(slots, id, -1);
    }
  }

  // ------------------------------------------------------------------------- steps

  predicate ContainerEnabled(s: State, c: nat, cs: ContainerStep) {
    && c < |s.containers|
    && var pc := s.containers[c].pc;
       match cs
       case StartFails => pc.Starting?
       case Starts => pc.Starting?
       case ShutsDown => pc.LoopTop?
       case QueuesSlot => pc.LoopTop?
       case Broadcasts => pc.Queued? || pc.FailQueued?
       case FreezeFails => pc.Polling?
       case LeavesSelect => pc.Polling? && pc.t < |s.tokens|
       case UnfreezeFails => pc.Serving?
       case RemovesToken => pc.KWon?
       case ClosesTrigger => pc.KRemoved? && pc.t < |s.tokens|
       case ClosesDone => pc.KSignalled? && pc.t < |s.tokens|
       case SeesDone => pc.Serving? && pc.t < |s.tokens| && s.tokens[pc.t].dones > 0
  }

  function SetContainer(s: State, c: nat, pc: ContainerPc): State
    requires c < |s.containers|
  {
    s.(containers := s.containers[c := s.containers[c].(pc := pc)])
  }

  /** `queueSlot` up to its unlock: a fresh token at the end of the queue. */
  function Enqueue(s: State, c: nat, fatal: bool): State
    requires c < |s.containers|
  {
    var id := |s.tokens|;
    s.(slots := s.slots + [id],
       tokens := s.tokens + [Token(c, Nobody, 0, 0, fatal)],
       containers := s.containers[c := Container(if fatal then FailQueued(id) else Queued(id), id)])
  }

  function ApplyContainer(s: State, c: nat, cs: ContainerStep): State
    requires ContainerEnabled(s, c, cs)
  {
    var pc := s.containers[c].pc;
    match cs
    case StartFails => Enqueue(s, c, true)
    case Starts => SetContainer(s, c, LoopTop)
    case ShutsDown => SetContainer(s, c, Exited)
    case QueuesSlot => Enqueue(s, c, false)
    case Broadcasts =>
      SetContainer(s, c, if pc.Queued? then Polling(pc.t) else Exited).(callers := WakeAll(s.callers))
    case FreezeFails => SetContainer(s, c, Exited)
    case LeavesSelect =>
      if s.tokens[pc.t].owner.Nobody?
      then SetContainer(s, c, KWon(pc.t)).(tokens := s.tokens[pc.t := s.tokens[pc.t].(owner := ByContainer)])
      else SetContainer(s, c, Serving(pc.t))
    case UnfreezeFails => SetContainer(s, c, Exited)
    case RemovesToken => SetContainer(s, c, KRemoved(pc.t)).(slots := Remove(s.slots, pc.t))
    case ClosesTrigger => CloseTrigger(SetContainer(s, c, KSignalled(pc.t)), pc.t)
    case ClosesDone => CloseDone(SetContainer(s, c, KClosed(pc.t)), pc.t)
    case SeesDone => SetContainer(s, c, if s.tokens[pc.t].fatal then Exited else LoopTop)
  }

  function CloseTrigger(s: State, t: nat): State
    requires t < |s.tokens|
  {
    s.(tokens := s.tokens[t := s.tokens[t].(triggers := s.tokens[t].triggers + 1)])
  }

  function CloseDone(s: State, t: nat): State
    requires t < |s.tokens|
  {
    s.(tokens := s.tokens[t := s.tokens[t].(dones := s.tokens[t].dones + 1)])
  }

  predicate CallerEnabled(s: State, k: nat, ks: CallerStep) {
    && k < |s.callers|
    && var w := s.callers[k];
       match ks
       case TakesOffer => w.pc.Waiting? && w.dq.Offer?
       case TriesToken => w.pc.Trying? && w.pc.t < |s.tokens|
       case GivesUp => w.pc.Waiting?
       case Removes => w.pc.Won?
       case Triggers => w.pc.Removed? && w.pc.t < |s.tokens|
       case Executes(_) => w.pc.Holding? && w.pc.t < |s.tokens|
       case Closes => w.pc.Ending? && w.pc.t < |s.tokens|
       case Cancelled => true
       case WatcherRuns => w.ctxDone && !w.watched
       case DqLooks => w.dq.Look? || w.dq.Woken?
       case DqDrops => w.dq.Offer? && w.dq.t < |s.tokens| && (s.tokens[w.dq.t].triggers > 0 || w.ctxDone)
  }

  function SetCaller(s: State, k: nat, w: Caller): State
    requires k < |s.callers|
  {
    s.(callers := s.callers[k := w])
  }

  function ApplyCaller(s: State, k: nat, ks: CallerStep): State
    requires CallerEnabled(s, k, ks)
  {
    var w := s.callers[k];
    match ks
    case TakesOffer => SetCaller(s, k, w.(pc := Trying(w.dq.t), dq := Look))
    case TriesToken =>
      if s.tokens[w.pc.t].owner.Nobody?
      then SetCaller(s, k, w.(pc := Won(w.pc.t))).(
             tokens := s.tokens[w.pc.t := s.tokens[w.pc.t].(owner := ByCaller(k))])
      else SetCaller(s, k, w.(pc := Waiting))
    case GivesUp => SetCaller(s, k, w.(pc := Left))
    case Removes => SetCaller(s, k, w.(pc := Removed(w.pc.t))).(slots := Remove(s.slots, w.pc.t))
    case Triggers => CloseTrigger(SetCaller(s, k, w.(pc := Holding(w.pc.t))), w.pc.t)
    case Executes(fatal) =>
      // a slot that already carries an error is not executed, only closed
      var tok := s.tokens[w.pc.t];
      SetCaller(s, k, w.(pc := Ending(w.pc.t))).(tokens := s.tokens[w.pc.t := tok.(fatal := tok.fatal || fatal)])
    case Closes => CloseDone(SetCaller(s, k, w.(pc := Closed(w.pc.t))), w.pc.t)
    case Cancelled => SetCaller(s, k, w.(ctxDone := true))
    case WatcherRuns =>
      var marked := s.callers[k := w.(watched := true)];
      s.(callers := if w.dq.Asleep? || w.dq.Woken? then WakeAll(marked) else marked)
    case DqLooks =>
      SetCaller(s, k, w.(dq := if w.ctxDone then Stopped
                               else if |s.slots| == 0 then Asleep
                               else Offer(s.slots[|s.slots| - 1])))
    case DqDrops => SetCaller(s, k, w.(dq := Look))
  }

  predicate Enabled(s: State, step: Step) {
    match step
    case NewContainer => true
    case NewCaller => true
    case ContainerMoves(c, cs) => ContainerEnabled(s, c, cs)
    case CallerMoves(k, ks) => CallerEnabled(s, k, ks)
  }

  function Apply(s: State, step: Step): State
    requires Enabled(s, step)
  {
    match step
    case NewContainer => s.(containers := s.containers + [Container(Starting, -1)])
    case NewCaller => s.(callers := s.callers + [Caller(Waiting, Look, false, false)])
    case ContainerMoves(c, cs) => ApplyContainer(s, c, cs)
    case CallerMoves(k, ks) => ApplyCaller(s, k, ks)
  }

  // --------------------------------------------------------------------- invariant

  /** How far the winner of token t has come: 0 won the swap, 1 took the token out of
      the queue, 2 closed the trigger, 3 closed the slot; -1 has nothing to do with t. */
  function ContainerStage(pc: ContainerPc, t: nat): int {
    match pc
    case KWon(u) => if u == t then 0 else -1
    case KRemoved(u) => if u == t then 1 else -1
    case KSignalled(u) => if u == t then 2 else -1
    case KClosed(u) => if u == t then 3 else -1
    case _ => -1
  }

  function CallerStage(pc: CallerPc, t: nat): int {
    match pc
    case Won(u) => if u == t then 0 else -1
    case Removed(u) => if u == t then 1 else -1
    case Holding(u) => if u == t then 2 else -1
    case Ending(u) => if u == t then 2 else -1
    case Closed(u) => if u == t then 3 else -1
    case _ => -1
  }

  function Stage(s: State, tok: Token, t: nat): int {
    match tok.owner
    case Nobody => -1
    case ByContainer => if tok.container < |s.containers| then ContainerStage(s.containers[tok.container].pc, t) else -1
    case ByCaller(k) => if k < |s.callers| then CallerStage(s.callers[k].pc, t) else -1
  }

  predicate TokenInv(s: State, t: nat)
    requires t < |s.tokens|
  {
    var tok := s.tokens[t];
    var stage := Stage(s, tok, t);
    && tok.container < |s.containers|
    && (tok.owner.Nobody? || stage >= 0)
    && (t in s.slots <==> stage <= 0)
    && tok.triggers == (if stage >= 2 then 1 else 0)
    && tok.dones == (if stage >= 3 then 1 else 0)
  }

  /** Only the latest token of a container can be unfinished or carry an error. */
  predicate ContainerInv(s: State, c: nat)
    requires c < |s.containers|
  {
    var x := s.containers[c];
    && -1 <= x.last < |s.tokens|
    && (forall t :: 0 <= t < |s.tokens| && s.tokens[t].container == c && t != x.last ==>
          s.tokens[t].dones == 1 && !s.tokens[t].fatal)
    && (x.last >= 0 ==> s.tokens[x.last].container == c)
    && (x.pc.LoopTop? && x.last >= 0 ==> s.tokens[x.last].dones == 1 && !s.tokens[x.last].fatal)
    && (x.pc.Starting? ==> x.last == -1)
    && (x.pc.Queued? || x.pc.FailQueued? || x.pc.Polling? || x.pc.Serving? ==> x.pc.t == x.last)
    && (x.pc.KWon? || x.pc.KRemoved? || x.pc.KSignalled? || x.pc.KClosed? ==>
          x.pc.t == x.last && s.tokens[x.last].owner == ByContainer)
    && (x.pc.Serving? ==> s.tokens[x.last].owner.ByCaller?)
  }

  predicate CallerInv(s: State, k: nat)
    requires k < |s.callers|
  {
    var w := s.callers[k];
    && (w.pc.Trying? ==> w.pc.t < |s.tokens|)
    && (w.pc.Won? || w.pc.Removed? || w.pc.Holding? || w.pc.Ending? || w.pc.Closed? ==>
          w.pc.t < |s.tokens| && s.tokens[w.pc.t].owner == ByCaller(k))
    && (w.dq.Offer? ==> w.dq.t < |s.tokens|)
    && (w.dq.Asleep? && w.ctxDone ==> !w.watched)
    && (w.watched ==> w.ctxDone)
  }

  predicate SlotsInv(s: State) {
    Ascending(s.slots) && forall x :: x in s.slots ==> x < |s.tokens|
  }

  predicate BroadcastComing(s: State) {
    exists c :: 0 <= c < |s.containers| && (s.containers[c].pc.Queued? || s.containers[c].pc.FailQueued?)
  }

  /** A dequeuer that sleeps on a non-empty queue has a broadcast coming. */
  predicate WakeInv(s: State) {
    |s.slots| > 0 && (exists k :: 0 <= k < |s.callers| && s.callers[k].dq.Asleep?) ==> BroadcastComing(s)
  }

  predicate TokensInv(s: State) { forall t :: 0 <= t < |s.tokens| ==> TokenInv(s, t) }
  predicate ContainersInv(s: State) { forall c :: 0 <= c < |s.containers| ==> ContainerInv(s, c) }
  predicate CallersInv(s: State) { forall k :: 0 <= k < |s.callers| ==> CallerInv(s, k) }

  predicate Inv(s: State) {
    TokensInv(s) && ContainersInv(s) && CallersInv(s) && SlotsInv(s) && WakeInv(s)
  }

  // ------------------------------------------------------------------------ proofs

  /** A broadcast that is still coming stays so unless it is made. */
  lemma BroadcastStays(s: State, s': State, c: nat)
    requires WakeInv(s) && c < |s.containers| && |s'.containers| == |s.containers|
    requires forall d :: 0 <= d < |s.containers| && d != c ==> s'.containers[d] == s.containers[d]
    requires !s.containers[c].pc.Queued? && !s.containers[c].pc.FailQueued?
    requires s'.callers == s.callers && (|s'.slots| > 0 ==> |s.slots| > 0)
    ensures WakeInv(s')
  {
    if BroadcastComing(s) {
      var d :| 0 <= d < |s.containers| && (s.containers[d].pc.Queued? || s.containers[d].pc.FailQueued?);
      assert s'.containers[d] == s.containers[d];
    }
  }

  predicate Unstaged(pc: ContainerPc) { !pc.KWon? && !pc.KRemoved? && !pc.KSignalled? && !pc.KClosed? }

  /** A container that holds no token of its own moves without touching any. */
  lemma MovePlainContainer(s: State, c: nat, pc: ContainerPc)
    requires Inv(s) && c < |s.containers| && Unstaged(s.containers[c].pc) && Unstaged(pc)
    requires !s.containers[c].pc.Queued? && !s.containers[c].pc.FailQueued?
    requires ContainerInv(SetContainer(s, c, pc), c)
    ensures Inv(SetContainer(s, c, pc))
  {
    var s' := SetContainer(s, c, pc);
    forall t | 0 <= t < |s'.tokens| ensures TokenInv(s', t) { assert TokenInv(s, t); }
    forall d | 0 <= d < |s'.containers| ensures ContainerInv(s', d) { assert ContainerInv(s, d); }
    forall k | 0 <= k < |s'.callers| ensures CallerInv(s', k) { assert CallerInv(s, k); }
    BroadcastStays(s, s', c);
  }

  lemma EnqueueKeepsInv(s: State, c: nat, fatal: bool)
    requires Inv(s) && c < |s.containers|
    requires s.containers[c].pc.LoopTop? || s.containers[c].pc.Starting?
    ensures Inv(Enqueue(s, c, fatal))
  {
    var s' := Enqueue(s, c, fatal);
    var id := |s.tokens|;
    forall t | 0 <= t < |s'.tokens| ensures TokenInv(s', t) {
      if t < id { assert TokenInv(s, t); }
    }
    forall d | 0 <= d < |s'.containers| ensures ContainerInv(s', d) { assert ContainerInv(s, d); }
    forall k | 0 <= k < |s'.callers| ensures CallerInv(s', k) { assert CallerInv(s, k); }
    assert forall i :: 0 <= i < |s.slots| ==> s.slots[i] in s.slots;
    assert s'.containers[c].pc.Queued? || s'.containers[c].pc.FailQueued?;
  }

  lemma BroadcastKeepsInv(s: State, c: nat)
    requires Inv(s) && ContainerEnabled(s, c, Broadcasts)
    ensures Inv(ApplyContainer(s, c, Broadcasts))
  {
    var s' := ApplyContainer(s, c, Broadcasts);
    forall t | 0 <= t < |s'.tokens| ensures TokenInv(s', t) { assert TokenInv(s, t); }
    forall d | 0 <= d < |s'.containers| ensures ContainerInv(s', d) { assert ContainerInv(s, d); }
    forall k | 0 <= k < |s'.callers| ensures CallerInv(s', k) { assert CallerInv(s, k); }
  }

  predicate ContainerAdvances(s: State, c: nat, cs: ContainerStep) {
    && ContainerEnabled(s, c, cs)
    && (cs.RemovesToken? || cs.ClosesTrigger? || cs.ClosesDone?
        || (cs.LeavesSelect? && s.tokens[s.containers[c].pc.t].owner.Nobody?))
  }

  lemma ContainerWinsToken(s: State, c: nat, cs: ContainerStep)
    requires Inv(s) && ContainerAdvances(s, c, cs)
    ensures TokensInv(ApplyContainer(s, c, cs)) && SlotsInv(ApplyContainer(s, c, cs))
  {
    var s' := ApplyContainer(s, c, cs);
    var t := s.containers[c].pc.t;
    assert ContainerInv(s, c) && TokenInv(s, t);
    if cs.RemovesToken? { RemoveProperties(s.slots, t); }
    forall u | 0 <= u < |s'.tokens| ensures TokenInv(s', u) { assert TokenInv(s, u); }
  }

  /** The four points of a container that won its own token. */
  lemma ContainerWins(s: State, c: nat, cs: ContainerStep)
    requires Inv(s) && ContainerAdvances(s, c, cs)
    ensures Inv(ApplyContainer(s, c, cs))
  {
    var s' := ApplyContainer(s, c, cs);
    assert ContainerInv(s, c) && TokenInv(s, s.containers[c].pc.t);
    ContainerWinsToken(s, c, cs);
    forall d | 0 <= d < |s'.containers| ensures ContainerInv(s', d) { assert ContainerInv(s, d); }
    forall k | 0 <= k < |s'.callers| ensures CallerInv(s', k) { assert CallerInv(s, k); }
    if cs.RemovesToken? { RemoveProperties(s.slots, s.containers[c].pc.t); }
    assert |s'.slots| > 0 ==> s'.slots[0] in s'.slots;
    BroadcastStays(s, s', c);
  }

  lemma ContainerKeepsInv(s: State, c: nat, cs: ContainerStep)
    requires Inv(s) && ContainerEnabled(s, c, cs)
    ensures Inv(ApplyContainer(s, c, cs))
  {
    assert ContainerInv(s, c);
    match cs
    case StartFails => EnqueueKeepsInv(s, c, true);
    case QueuesSlot => EnqueueKeepsInv(s, c, false);
    case Broadcasts => BroadcastKeepsInv(s, c);
    case LeavesSelect =>
      if s.tokens[s.containers[c].pc.t].owner.Nobody? {
        ContainerWins(s, c, cs);
      } else {
        LoserServes(s, c);
      }
    case RemovesToken => ContainerWins(s, c, cs);
    case ClosesTrigger => ContainerWins(s, c, cs);
    case ClosesDone => ContainerWins(s, c, cs);
    case Starts => MovePlainContainer(s, c, LoopTop);
    case SeesDone =>
      assert TokenInv(s, s.containers[c].pc.t);
      MovePlainContainer(s, c, if s.tokens[s.containers[c].pc.t].fatal then Exited else LoopTop);
    case _ => MovePlainContainer(s, c, Exited);
  }

  /** A container that loses the swap lost it to a call: it never queues for its own token twice. */
  lemma LoserServes(s: State, c: nat)
    requires Inv(s) && ContainerEnabled(s, c, LeavesSelect) && !s.tokens[s.containers[c].pc.t].owner.Nobody?
    ensures Inv(ApplyContainer(s, c, LeavesSelect))
  {
    var t := s.containers[c].pc.t;
    assert ContainerInv(s, c) && TokenInv(s, t);
    MovePlainContainer(s, c, Serving(t));
  }

  /** A call that holds no token moves, or its dequeuer or watcher does. */
  lemma MovePlainCaller(s: State, k: nat, w: Caller)
    requires Inv(s) && k < |s.callers|
    requires forall t :: 0 <= t < |s.tokens| ==> CallerStage(w.pc, t) == CallerStage(s.callers[k].pc, t)
    requires CallerInv(SetCaller(s, k, w), k)
    requires w.dq.Asleep? ==> s.callers[k].dq.Asleep? || |s.slots| == 0
    ensures Inv(SetCaller(s, k, w))
  {
    var s' := SetCaller(s, k, w);
    forall t | 0 <= t < |s'.tokens| ensures TokenInv(s', t) { assert TokenInv(s, t); }
    forall c | 0 <= c < |s'.containers| ensures ContainerInv(s', c) { assert ContainerInv(s, c); }
    forall j | 0 <= j < |s'.callers| ensures CallerInv(s', j) { assert CallerInv(s, j); }
    if BroadcastComing(s) {
      var d :| 0 <= d < |s.containers| && (s.containers[d].pc.Queued? || s.containers[d].pc.FailQueued?);
      assert s'.containers[d] == s.containers[d];
    }
  }

  predicate CallerAdvances(s: State, k: nat, ks: CallerStep) {
    && CallerEnabled(s, k, ks)
    && (ks.Removes? || ks.Triggers? || ks.Executes? || ks.Closes?
        || (ks.TriesToken? && s.tokens[s.callers[k].pc.t].owner.Nobody?))
  }

  lemma CallerWinsToken(s: State, k: nat, ks: CallerStep)
    requires Inv(s) && CallerAdvances(s, k, ks)
    ensures TokensInv(ApplyCaller(s, k, ks)) && SlotsInv(ApplyCaller(s, k, ks))
  {
    var s' := ApplyCaller(s, k, ks);
    var t := s.callers[k].pc.t;
    assert CallerInv(s, k) && TokenInv(s, t);
    if ks.Removes? { RemoveProperties(s.slots, t); }
    forall u | 0 <= u < |s'.tokens| ensures TokenInv(s', u) { assert TokenInv(s, u); }
  }

  /** The points of a call that won a token: one actor, one token, one stage further. */
  lemma CallerWins(s: State, k: nat, ks: CallerStep)
    requires Inv(s) && CallerAdvances(s, k, ks)
    ensures Inv(ApplyCaller(s, k, ks))
  {
    var s' := ApplyCaller(s, k, ks);
    assert CallerInv(s, k) && TokenInv(s, s.callers[k].pc.t);
    CallerWinsToken(s, k, ks);
    forall c | 0 <= c < |s'.containers| ensures ContainerInv(s', c) { assert ContainerInv(s, c); }
    forall j | 0 <= j < |s'.callers| ensures CallerInv(s', j) { assert CallerInv(s, j); }
    if BroadcastComing(s) {
      var d :| 0 <= d < |s.containers| && (s.containers[d].pc.Queued? || s.containers[d].pc.FailQueued?);
      assert s'.containers[d] == s.containers[d];
    }
  }

  lemma WatcherKeepsInv(s: State, k: nat)
    requires Inv(s) && CallerEnabled(s, k, WatcherRuns)
    ensures Inv(ApplyCaller(s, k, WatcherRuns))
  {
    var s' := ApplyCaller(s, k, WatcherRuns);
    forall t | 0 <= t < |s'.tokens| ensures TokenInv(s', t) { assert TokenInv(s, t); }
    forall c | 0 <= c < |s'.containers| ensures ContainerInv(s', c) { assert ContainerInv(s, c); }
    forall j | 0 <= j < |s'.callers| ensures CallerInv(s', j) { assert CallerInv(s, j); }
    if BroadcastComing(s) {
      var d :| 0 <= d < |s.containers| && (s.containers[d].pc.Queued? || s.containers[d].pc.FailQueued?);
      assert s'.containers[d] == s.containers[d];
    }
  }

  lemma CallerKeepsInv(s: State, k: nat, ks: CallerStep)
    requires Inv(s) && CallerEnabled(s, k, ks)
    ensures Inv(ApplyCaller(s, k, ks))
  {
    var w := s.callers[k];
    assert CallerInv(s, k);
    match ks
    case TakesOffer => MovePlainCaller(s, k, w.(pc := Trying(w.dq.t), dq := Look));
    case TriesToken =>
      if s.tokens[w.pc.t].owner.Nobody? {
        CallerWins(s, k, ks);
      } else {
        MovePlainCaller(s, k, w.(pc := Waiting));
      }
    case GivesUp => MovePlainCaller(s, k, w.(pc := Left));
    case Cancelled => MovePlainCaller(s, k, w.(ctxDone := true));
    case WatcherRuns => WatcherKeepsInv(s, k);
    case DqLooks => LookKeepsInv(s, k);
    case DqDrops => MovePlainCaller(s, k, w.(dq := Look));
    case _ => CallerWins(s, k, ks);
  }

  lemma LookKeepsInv(s: State, k: nat)
    requires Inv(s) && CallerEnabled(s, k, DqLooks)
    ensures Inv(ApplyCaller(s, k, DqLooks))
  {
    assert CallerInv(s, k);
    if |s.slots| > 0 { assert s.slots[|s.slots| - 1] in s.slots; }
    MovePlainCaller(s, k, ApplyCaller(s, k, DqLooks).callers[k]);
  }

  lemma NewActorKeepsInv(s: State, step: Step)
    requires Inv(s) && (step.NewContainer? || step.NewCaller?)
    ensures Inv(Apply(s, step))
  {
    var s' := Apply(s, step);
    forall t | 0 <= t < |s'.tokens| ensures TokenInv(s', t) { assert TokenInv(s, t); }
    forall c | 0 <= c < |s'.containers| ensures ContainerInv(s', c) {
      if c < |s.containers| {
        assert ContainerInv(s, c);
      } else {
        forall t | 0 <= t < |s.tokens| ensures s.tokens[t].container != c { assert TokenInv(s, t); }
      }
    }
    forall k | 0 <= k < |s'.callers| ensures CallerInv(s', k) { if k < |s.callers| { assert CallerInv(s, k); } }
    if BroadcastComing(s) {
      var d :| 0 <= d < |s.containers| && (s.containers[d].pc.Queued? || s.containers[d].pc.FailQueued?);
      assert s'.containers[d] == s.containers[d];
    }
  }

  lemma StepKeepsInv(s: State, step: Step)
    requires Inv(s) && Enabled(s, step)
    ensures Inv(Apply(s, step))
  {
    match step
    case ContainerMoves(c, cs) => ContainerKeepsInv(s, c, cs);
    case CallerMoves(k, ks) => CallerKeepsInv(s, k, ks);
    case _ => NewActorKeepsInv(s, step);
  }

  // -------------------------------------------------------------------------- runs

  ghost predicate IsRun(run: seq<State>, steps: seq<Step>) {
    && |run| == |steps| + 1
    && run[0] == State([], [], [], [])
    && forall i :: 0 <= i < |steps| ==> Enabled(run[i], steps[i]) && run[i + 1] == Apply(run[i], steps[i])
  }

  lemma {:induction false} RunKeepsInv(run: seq<State>, steps: seq<Step>, n: nat)
    requires IsRun(run, steps) && n < |run|
    ensures Inv(run[n])
  {
    if n > 0 {
      RunKeepsInv(run, steps, n - 1);
      StepKeepsInv(run[n - 1], steps[n - 1]);
    }
  }

  /** `trigger` and `done` of a token are closed at most once each (a second close
      would panic), and a token nobody won is still in the queue for others to find. */
  lemma ChannelsCloseOnce(run: seq<State>, steps: seq<Step>, n: nat, t: nat)
    requires IsRun(run, steps) && n < |run| && t < |run[n].tokens|
    ensures run[n].tokens[t].triggers <= 1 && run[n].tokens[t].dones <= run[n].tokens[t].triggers
    ensures run[n].tokens[t].owner.Nobody? ==> t in run[n].slots
    ensures run[n].tokens[t].dones > 0 ==> t !in run[n].slots
  {
    RunKeepsInv(run, steps, n);
    assert TokenInv(run[n], t);
  }

  /** The call has won a token and has not closed the slot yet. */
  predicate Occupies(w: Caller) { w.pc.Won? || w.pc.Removed? || w.pc.Holding? || w.pc.Ending? }

  /** A container runs at most one call at a time: two calls never hold unfinished
      slots of the same container, not even through tokens of different rounds. */
  lemma OneCallPerContainer(run: seq<State>, steps: seq<Step>, n: nat, j: nat, k: nat)
    requires IsRun(run, steps) && n < |run| && j < |run[n].callers| && k < |run[n].callers|
    requires Occupies(run[n].callers[j]) && Occupies(run[n].callers[k])
    ensures run[n].callers[j].pc.t < |run[n].tokens| && run[n].callers[k].pc.t < |run[n].tokens|
    ensures var s := run[n];
      s.tokens[s.callers[j].pc.t].container == s.tokens[s.callers[k].pc.t].container ==> j == k
  {
    RunKeepsInv(run, steps, n);
    var s := run[n];
    var t, u := s.callers[j].pc.t, s.callers[k].pc.t;
    assert CallerInv(s, j) && CallerInv(s, k) && TokenInv(s, t) && TokenInv(s, u);
    assert ContainerInv(s, s.tokens[t].container);
  }

  /** The winner of a token never changes. */
  lemma {:induction false} OwnerIsStable(run: seq<State>, steps: seq<Step>, n: nat, m: nat, t: nat)
    requires IsRun(run, steps) && n <= m < |run| && t < |run[n].tokens| && !run[n].tokens[t].owner.Nobody?
    ensures t < |run[m].tokens| && run[m].tokens[t].owner == run[n].tokens[t].owner
  {
    if m > n {
      OwnerIsStable(run, steps, n, m - 1, t);
      assert Enabled(run[m - 1], steps[m - 1]) && run[m] == Apply(run[m - 1], steps[m - 1]);
    }
  }

  predicate HasWon(w: Caller, t: nat) { (Occupies(w) || w.pc.Closed?) && w.pc.t == t }

  predicate ContainerHasWon(c: Container, t: nat) { !Unstaged(c.pc) && c.pc.t == t }

  /** A token is won once and for all: whoever is seen with it, then or at any later time and
      however far it got, is the same call; and the container never is if a call was. */
  lemma OneWinnerForGood(run: seq<State>, steps: seq<Step>, n: nat, m: nat, t: nat, j: nat)
    requires IsRun(run, steps) && n <= m < |run| && j < |run[n].callers| && HasWon(run[n].callers[j], t)
    ensures t < |run[m].tokens| && run[m].tokens[t].owner == ByCaller(j)
    ensures forall k :: 0 <= k < |run[m].callers| && HasWon(run[m].callers[k], t) ==> k == j
    ensures forall c :: 0 <= c < |run[m].containers| ==> !ContainerHasWon(run[m].containers[c], t)
  {
    RunKeepsInv(run, steps, n);
    RunKeepsInv(run, steps, m);
    assert CallerInv(run[n], j);
    OwnerIsStable(run, steps, n, m, t);
    forall k | 0 <= k < |run[m].callers| && HasWon(run[m].callers[k], t) ensures k == j { assert CallerInv(run[m], k); }
    forall c | 0 <= c < |run[m].containers| ensures !ContainerHasWon(run[m].containers[c], t) {
      assert ContainerInv(run[m], c);
    }
  }

  /** An error recorded on a slot stays recorded, and the token keeps its container. */
  lemma {:induction false} FatalIsStable(run: seq<State>, steps: seq<Step>, n: nat, m: nat, t: nat)
    requires IsRun(run, steps) && n <= m < |run| && t < |run[n].tokens| && run[n].tokens[t].fatal
    ensures t < |run[m].tokens| && run[m].tokens[t].fatal && run[m].tokens[t].container == run[n].tokens[t].container
  {
    if m > n {
      FatalIsStable(run, steps, n, m - 1, t);
      assert Enabled(run[m - 1], steps[m - 1]) && run[m] == Apply(run[m - 1], steps[m - 1]);
    }
  }

  /** A container whose slot recorded a fatal error never offers another slot. */
  lemma FatalErrorEndsContainer(run: seq<State>, steps: seq<Step>, n: nat, m: nat, t: nat)
    requires IsRun(run, steps) && n <= m < |run| && t < |run[n].tokens| && run[n].tokens[t].fatal
    ensures t < |run[m].tokens|
    ensures forall u :: t < u < |run[m].tokens| ==> run[m].tokens[u].container != run[n].tokens[t].container
  {
    FatalIsStable(run, steps, n, m, t);
    RunKeepsInv(run, steps, m);
    var s := run[m];
    var c := s.tokens[t].container;
    assert TokenInv(s, t) && ContainerInv(s, c);
    forall u | t < u < |s.tokens| ensures s.tokens[u].container != c {
      assert TokenInv(s, u);
      TokensComeInOrder(run, steps, m, c);
    }
  }

  /** The latest token of a container is its youngest. */
  lemma {:induction false} TokensComeInOrder(run: seq<State>, steps: seq<Step>, n: nat, c: nat)
    requires IsRun(run, steps) && n < |run| && c < |run[n].containers|
    ensures forall u :: 0 <= u < |run[n].tokens| && run[n].tokens[u].container == c ==> u <= run[n].containers[c].last
  {
    if n > 0 {
      assert Enabled(run[n - 1], steps[n - 1]) && run[n] == Apply(run[n - 1], steps[n - 1]);
      RunKeepsInv(run, steps, n - 1);
      if c < |run[n - 1].containers| {
        TokensComeInOrder(run, steps, n - 1, c);
      } else {
        forall u | 0 <= u < |run[n].tokens| ensures run[n].tokens[u].container != c {
          assert TokenInv(run[n - 1], u);
        }
      }
    }
  }

  /** No lost wakeup: a dequeuer asleep on a non-empty queue, or one whose context has
      ended, has an enabled step of somebody else that wakes it. */
  lemma SleepingDequeuerIsWoken(run: seq<State>, steps: seq<Step>, n: nat, k: nat) returns (wake: Step)
    requires IsRun(run, steps) && n < |run| && k < |run[n].callers| && run[n].callers[k].dq.Asleep?
    requires |run[n].slots| > 0 || run[n].callers[k].ctxDone
    ensures Enabled(run[n], wake)
    ensures k < |Apply(run[n], wake).callers| && Apply(run[n], wake).callers[k].dq.Woken?
  {
    RunKeepsInv(run, steps, n);
    var s := run[n];
    assert CallerInv(s, k);
    if s.callers[k].ctxDone {
      wake := CallerMoves(k, WatcherRuns);
    } else {
      var c: nat :| c < |s.containers| && (s.containers[c].pc.Queued? || s.containers[c].pc.FailQueued?);
      wake := ContainerMoves(c, Broadcasts);
    }
  }

  // ---------------------------------------------------------------- errors and containers

  /** The step records an error on token t: a call fails on the slot, or the container never started. */
  predicate FailsOn(s: State, step: Step, t: nat) {
    || (step.CallerMoves? && step.ks == Executes(true) && step.k < |s.callers| && s.callers[step.k].pc == Holding(t))
    || (step.ContainerMoves? && step.cs.StartFails? && t == |s.tokens|)
  }

  lemma FatalMoves(s: State, step: Step, t: nat)
    requires Enabled(s, step)
    ensures var s' := Apply(s, step);
      t < |s'.tokens| ==> (s'.tokens[t].fatal <==> FailsOn(s, step, t) || (t < |s.tokens| && s.tokens[t].fatal))
    ensures |s.tokens| <= |Apply(s, step).tokens|
  {
  }

  /** A slot carries an error if and only if a step recorded one. */
  lemma {:induction false} FatalIffFailed(run: seq<State>, steps: seq<Step>, n: nat, t: nat)
    requires IsRun(run, steps) && n < |run| && t < |run[n].tokens|
    ensures run[n].tokens[t].fatal <==> exists i :: 0 <= i < n && FailsOn(run[i], steps[i], t)
  {
    if n > 0 {
      var s, step := run[n - 1], steps[n - 1];
      assert Enabled(s, step) && run[n] == Apply(s, step);
      FatalMoves(s, step, t);
      if t < |s.tokens| {
        FatalIffFailed(run, steps, n - 1, t);
      } else {
        NothingFailsYet(run, steps, n - 1, t);
      }
      assert (exists i :: 0 <= i < n && FailsOn(run[i], steps[i], t)) <==>
        FailsOn(s, step, t) || exists i :: 0 <= i < n - 1 && FailsOn(run[i], steps[i], t);
    }
  }

  lemma {:induction false} NothingFailsYet(run: seq<State>, steps: seq<Step>, n: nat, t: nat)
    requires IsRun(run, steps) && n < |run| && t >= |run[n].tokens|
    ensures !exists i :: 0 <= i < n && FailsOn(run[i], steps[i], t)
  {
    if n > 0 {
      var s, step := run[n - 1], steps[n - 1];
      assert Enabled(s, step) && run[n] == Apply(s, step);
      NothingFailsYet(run, steps, n - 1, t);
      assert !FailsOn(s, step, t);
    }
  }

  /** After a call fails fatally on a slot, its container never offers another one. */
  lemma FatalExecutionEndsContainer(run: seq<State>, steps: seq<Step>, n: nat, m: nat, t: nat)
    requires IsRun(run, steps) && n < m < |run| && FailsOn(run[n], steps[n], t) && t < |run[n + 1].tokens|
    ensures t < |run[m].tokens|
    ensures forall u :: t < u < |run[m].tokens| ==> run[m].tokens[u].container != run[n + 1].tokens[t].container
  {
    FatalIffFailed(run, steps, n + 1, t);
    FatalErrorEndsContainer(run, steps, n + 1, m, t);
  }

  /** When a container sees that its call is done, it goes back to offer a slot if and only if nothing
      failed on the one it served; otherwise it ends.  The call that took the slot has closed it. */
  lemma ServedContainerReturns(run: seq<State>, steps: seq<Step>, n: nat, c: nat)
    requires IsRun(run, steps) && n < |steps| && steps[n] == ContainerMoves(c, SeesDone)
    ensures c < |run[n].containers| && run[n].containers[c].pc.Serving? && c < |run[n + 1].containers|
    ensures var t, pc := run[n].containers[c].pc.t, run[n + 1].containers[c].pc;
      && (pc.LoopTop? <==> !exists i :: 0 <= i < n && FailsOn(run[i], steps[i], t))
      && (pc.LoopTop? || pc.Exited?)
      && t < |run[n].tokens| && run[n].tokens[t].dones == 1 && run[n].tokens[t].owner.ByCaller?
  {
    assert Enabled(run[n], steps[n]) && run[n + 1] == Apply(run[n], steps[n]);
    RunKeepsInv(run, steps, n);
    assert ContainerInv(run[n], c) && TokenInv(run[n], run[n].containers[c].pc.t);
    FatalIffFailed(run, steps, n, run[n].containers[c].pc.t);
  }

  /** Last in, first out: a dequeuer offers the slot that was queued last of those still there. */
  lemma YoungestIsOffered(run: seq<State>, steps: seq<Step>, n: nat, k: nat)
    requires IsRun(run, steps) && n < |steps| && steps[n] == CallerMoves(k, DqLooks)
    ensures k < |run[n + 1].callers|
    ensures var dq := run[n + 1].callers[k].dq;
      && (dq.Offer? <==> |run[n].slots| > 0 && !run[n].callers[k].ctxDone)
      && (dq.Offer? ==> dq.t in run[n].slots && forall x :: x in run[n].slots ==> x <= dq.t)
      && (dq.Stopped? <==> run[n].callers[k].ctxDone)
      && (run[n].callers[k].dq.Look? || run[n].callers[k].dq.Woken?)
  {
    assert Enabled(run[n], steps[n]) && run[n + 1] == Apply(run[n], steps[n]);
    RunKeepsInv(run, steps, n);
  }
}
