/** Every interleaving of the goroutines around the resource tracker.

    A request stands for one call of `GetResourceToken` (blocking or not) or
    `WaitAsyncResource`, with its context, the goroutine that watches the
    context, the goroutine that waits on the condition variable, and the token
    it may be given.  A lock region is one step; the broadcast of a token's
    `decrement` happens after its unlock, so it is a step of its own. */
module ResourceRuns {
  import opened Words
  import opened Resource
  import opened SeqSum

  datatype Kind = Blocking | NonBlocking | AsyncSignal

  /** `Sleeping` is on the condition variable's list; `Woken` was broadcast to and
      has yet to take the lock again; `Offering` is in the select that hands the
      token over; `Delivered` handed it over; `Gone` ended without. */
  datatype Pc = Start | Sleeping | Woken | Offering | Delivered | Gone

  /** `Draining`: the shares are given back, the broadcast is still to come. */
  datatype Tok = NoTok | Open | Draining | Closed

  datatype Request = Request(
    kind: Kind, mem: u64, cpu: u64, isAsync: bool,
    ctxDone: bool, watched: bool, pc: Pc, shares: Shares, tok: Tok)

  datatype State = State(pools: Pools, waiters: int, reqs: seq<Request>)

  datatype Step =
    | Ask(kind: Kind, mb: u64, cpu: u64, isAsync: bool)
    | Enter(i: nat, late: bool)   // the waiting goroutine takes the lock; `late`: the context ends inside the region
    | Cancel(i: nat)
    | Watch(i: nat)
    | Deliver(i: nat)
    | Abandon(i: nat)
    | Close(i: nat)
    | Broadcast(i: nat)

  // ------------------------------------------------------------------------ steps

  predicate Waiting(r: Request) { r.pc.Sleeping? || r.pc.Woken? }

  /** The condition the goroutine waits for, apart from its context. */
  predicate Ready(p: Pools, r: Request) {
    if r.kind.AsyncSignal? then BelowHighWater(p) else Available(p, r.mem, r.cpu, r.isAsync)
  }

  function WakeOne(r: Request): Request { if r.pc.Sleeping? then r.(pc := Woken) else r }

  function WakeAll(reqs: seq<Request>): seq<Request> {
    seq(|reqs|, i requires 0 <= i < |reqs| => WakeOne(reqs[i]))
  }

  /** Does the region end with an allocation? */
  predicate Allocates(p: Pools, r: Request, late: bool) {
    && !r.kind.AsyncSignal? && Ready(p, r)
    && (if r.kind.NonBlocking? then Possible(p, r.mem, r.cpu, r.isAsync) else !r.ctxDone && !late)
  }

  /** One pass of the waiting goroutine through the lock. */
  function Pass(p: Pools, r: Request, late: bool): Request {
    if Allocates(p, r, late) then r.(pc := Offering, tok := Open, shares := Split(p, r.mem, r.cpu, r.isAsync))
    else if r.kind.NonBlocking? then r.(pc := Offering)
    else if !Ready(p, r) && !r.ctxDone then r.(pc := Sleeping)
    else if r.kind.AsyncSignal? && !r.ctxDone && !late then r.(pc := Delivered)
    else r.(pc := Gone, ctxDone := true)
  }

  predicate Enabled(s: State, step: Step) {
    match step
    case Ask(kind, mb, cpu, isAsync) => kind.Blocking? ==> Possible(s.pools, Bytes(mb), cpu, isAsync)
    case Enter(i, _) => i < |s.reqs| && (s.reqs[i].pc.Start? || s.reqs[i].pc.Woken?)
    case Cancel(i) => i < |s.reqs|
    case Watch(i) => i < |s.reqs| && s.reqs[i].ctxDone && !s.reqs[i].watched && !s.reqs[i].kind.NonBlocking?
    case Deliver(i) => i < |s.reqs| && s.reqs[i].pc.Offering?
    case Abandon(i) => i < |s.reqs| && s.reqs[i].pc.Offering? && s.reqs[i].ctxDone
    case Close(i) => i < |s.reqs| && s.reqs[i].pc.Delivered?
    case Broadcast(i) => i < |s.reqs| && s.reqs[i].tok.Draining?
  }

  /** `resourceToken.Close`: once only, give the shares back. */
  function CloseToken(s: State, i: nat): State
    requires i < |s.reqs|
  {
    var r := s.reqs[i];
    if r.tok.Open? then s.(pools := Give(s.pools, r.shares), reqs := s.reqs[i := r.(tok := Draining)]) else s
  }

  function EnterState(s: State, i: nat, late: bool): State
    requires i < |s.reqs|
  {
    var r := s.reqs[i];
    var r' := Pass(s.pools, r, late);
    // the count goes down on coming back from the wait, and up before (re)entering it
    var left := if r.kind.Blocking? && r.pc.Woken? then 1 else 0;
    var joined := if r.kind.Blocking? && r'.pc.Sleeping? then 1 else 0;
    State(if Allocates(s.pools, r, late) then Take(s.pools, r'.shares) else s.pools,
          s.waiters - left + joined, s.reqs[i := r'])
  }

  function Apply(s: State, step: Step): State
    requires Enabled(s, step)
  {
    match step
    case Ask(kind, mb, cpu, isAsync) =>
      s.(reqs := s.reqs + [Request(kind, Bytes(mb), cpu, isAsync, false, false, Start, NO_SHARES, NoTok)])
    case Enter(i, late) => EnterState(s, i, late)
    case Cancel(i) => s.(reqs := s.reqs[i := s.reqs[i].(ctxDone := true)])
    case Watch(i) =>
      var marked := s.reqs[i := s.reqs[i].(watched := true)];
      s.(reqs := if Waiting(s.reqs[i]) then WakeAll(marked) else marked)
    case Deliver(i) => s.(reqs := s.reqs[i := s.reqs[i].(pc := Delivered)])
    case Abandon(i) =>
      var c := CloseToken(s, i);
      c.(reqs := c.reqs[i := c.reqs[i].(pc := Gone)])
    case Close(i) => CloseToken(s, i)
    case Broadcast(i) => s.(reqs := WakeAll(s.reqs[i := s.reqs[i].(tok := Closed)]))
  }

  // -------------------------------------------------------------------- invariant

  function WaiterOf(r: Request): int { if r.kind.Blocking? && Waiting(r) then 1 else 0 }

  /** The shares an unclosed token holds, pool by pool. */
  function RamAsyncOf(r: Request): int { if r.tok.Open? then r.shares.ramAsync else 0 }
  function RamSyncOf(r: Request): int { if r.tok.Open? then r.shares.ramSync else 0 }
  function CpuAsyncOf(r: Request): int { if r.tok.Open? then r.shares.cpuAsync else 0 }
  function CpuSyncOf(r: Request): int { if r.tok.Open? then r.shares.cpuSync else 0 }

  predicate RequestInv(p: Pools, r: Request) {
    && (r.tok.Open? ==> r.pc.Offering? || r.pc.Delivered?)
    && (!r.tok.NoTok? ==>
          && r.shares.ramAsync + r.shares.ramSync == r.mem && r.shares.cpuAsync + r.shares.cpuSync == r.cpu
          && (r.isAsync ==> r.shares.ramSync == 0 && r.shares.cpuSync == 0))
    && (r.pc.Start? || Waiting(r) ==> r.tok.NoTok?)
    && (Waiting(r) ==> !r.kind.NonBlocking?)
    && (r.pc.Sleeping? && r.ctxDone ==> !r.watched)
    && (r.watched ==> r.ctxDone)
    && (r.kind.Blocking? ==> Possible(p, r.mem, r.cpu, r.isAsync))
  }

  predicate RequestsInv(s: State) {
    forall i :: 0 <= i < |s.reqs| ==> RequestInv(s.pools, s.reqs[i])
  }

  ghost predicate UsedIsSum(s: State) {
    && s.pools.used.ramAsync == Sum(s.reqs, RamAsyncOf)
    && s.pools.used.ramSync == Sum(s.reqs, RamSyncOf)
    && s.pools.used.cpuAsync == Sum(s.reqs, CpuAsyncOf)
    && s.pools.used.cpuSync == Sum(s.reqs, CpuSyncOf)
  }

  predicate SomeDraining(reqs: seq<Request>) {
    exists j :: 0 <= j < |reqs| && reqs[j].tok.Draining?
  }

  /** No lost wakeup: whoever sleeps although it need not has a broadcast coming. */
  predicate WakeupComing(s: State) {
    forall i :: 0 <= i < |s.reqs| && s.reqs[i].pc.Sleeping? && Ready(s.pools, s.reqs[i]) ==> SomeDraining(s.reqs)
  }

  ghost predicate Inv(s: State) {
    && Sound(s.pools)
    && RequestsInv(s)
    && UsedIsSum(s)
    && s.waiters == Sum(s.reqs, WaiterOf)
    && WakeupComing(s)
  }

  // ----------------------------------------------------------------------- proofs

  /** Replacing one request shifts the five sums by its own contribution. */
  lemma Replace(reqs: seq<Request>, i: nat, r: Request)
    requires i < |reqs|
    ensures Sum(reqs[i := r], RamAsyncOf) == Sum(reqs, RamAsyncOf) - RamAsyncOf(reqs[i]) + RamAsyncOf(r)
    ensures Sum(reqs[i := r], RamSyncOf) == Sum(reqs, RamSyncOf) - RamSyncOf(reqs[i]) + RamSyncOf(r)
    ensures Sum(reqs[i := r], CpuAsyncOf) == Sum(reqs, CpuAsyncOf) - CpuAsyncOf(reqs[i]) + CpuAsyncOf(r)
    ensures Sum(reqs[i := r], CpuSyncOf) == Sum(reqs, CpuSyncOf) - CpuSyncOf(reqs[i]) + CpuSyncOf(r)
    ensures Sum(reqs[i := r], WaiterOf) == Sum(reqs, WaiterOf) - WaiterOf(reqs[i]) + WaiterOf(r)
  {
    SumUpdate(reqs, i, r, RamAsyncOf);
    SumUpdate(reqs, i, r, RamSyncOf);
    SumUpdate(reqs, i, r, CpuAsyncOf);
    SumUpdate(reqs, i, r, CpuSyncOf);
    SumUpdate(reqs, i, r, WaiterOf);
  }

  /** A broadcast moves sleepers and changes no sum. */
  lemma WakeSums(reqs: seq<Request>)
    ensures Sum(WakeAll(reqs), RamAsyncOf) == Sum(reqs, RamAsyncOf)
    ensures Sum(WakeAll(reqs), RamSyncOf) == Sum(reqs, RamSyncOf)
    ensures Sum(WakeAll(reqs), CpuAsyncOf) == Sum(reqs, CpuAsyncOf)
    ensures Sum(WakeAll(reqs), CpuSyncOf) == Sum(reqs, CpuSyncOf)
    ensures Sum(WakeAll(reqs), WaiterOf) == Sum(reqs, WaiterOf)
  {
    SumSame(WakeAll(reqs), reqs, RamAsyncOf);
    SumSame(WakeAll(reqs), reqs, RamSyncOf);
    SumSame(WakeAll(reqs), reqs, CpuAsyncOf);
    SumSame(WakeAll(reqs), reqs, CpuSyncOf);
    SumSame(WakeAll(reqs), reqs, WaiterOf);
  }

  /** A broadcast keeps the invariant whatever else it was told: nobody sleeps afterwards. */
  lemma WakeKeepsInv(s: State)
    requires Sound(s.pools) && RequestsInv(s) && UsedIsSum(s) && s.waiters == Sum(s.reqs, WaiterOf)
    ensures Inv(s.(reqs := WakeAll(s.reqs)))
  {
    WakeSums(s.reqs);
  }

  /** Changing one request in place, without touching the pools or waking or draining anyone. */
  lemma ReplaceKeepsInv(s: State, i: nat, r: Request)
    requires Inv(s) && i < |s.reqs| && RequestInv(s.pools, r)
    requires r.tok == s.reqs[i].tok && r.shares == s.reqs[i].shares
    requires r.pc.Sleeping? ==> s.reqs[i].pc.Sleeping? || !Ready(s.pools, r)
    requires s.reqs[i].kind == r.kind && s.reqs[i].isAsync == r.isAsync
    requires s.reqs[i].mem == r.mem && s.reqs[i].cpu == r.cpu
    ensures Inv(State(s.pools, s.waiters - WaiterOf(s.reqs[i]) + WaiterOf(r), s.reqs[i := r]))
  {
    Replace(s.reqs, i, r);
    var reqs' := s.reqs[i := r];
    if SomeDraining(s.reqs) {
      var j :| 0 <= j < |s.reqs| && s.reqs[j].tok.Draining?;
      assert reqs'[j].tok.Draining?;
    }
  }

  /** An allocation readies nobody else, so the sleepers' promise carries over. */
  lemma AllocationReadiesNobody(s: State, i: nat, r: Request, p: Pools)
    requires WakeupComing(s) && Sound(s.pools) && i < |s.reqs|
    requires !r.pc.Sleeping? && !s.reqs[i].tok.Draining?
    requires p == Take(s.pools, r.shares) && Sound(p) && Within(s.pools.used, p.used)
    ensures WakeupComing(State(p, s.waiters, s.reqs[i := r]))
  {
    var reqs' := s.reqs[i := r];
    forall k | 0 <= k < |reqs'| && reqs'[k].pc.Sleeping? && Ready(p, reqs'[k])
      ensures SomeDraining(reqs')
    {
      TakeIsMonotone(s.pools, r.shares, s.reqs[k].mem, s.reqs[k].cpu, s.reqs[k].isAsync);
      var j :| 0 <= j < |s.reqs| && s.reqs[j].tok.Draining?;
      assert reqs'[j].tok.Draining?;
    }
  }

  /** The pools after an allocation that fits: plain sums, still sound. */
  lemma TakeFits(p: Pools, mem: u64, cpu: u64, isAsync: bool)
    requires Sound(p) && Available(p, mem, cpu, isAsync)
    ensures var sh := Split(p, mem, cpu, isAsync);
            var p' := Take(p, sh);
            && Sound(p') && Within(p.used, p'.used) && p'.total == p.total
            && p'.used.ramAsync == p.used.ramAsync + sh.ramAsync && p'.used.ramSync == p.used.ramSync + sh.ramSync
            && p'.used.cpuAsync == p.used.cpuAsync + sh.cpuAsync && p'.used.cpuSync == p.used.cpuSync + sh.cpuSync
  {
    SplitFits(p, mem, cpu, isAsync);
  }

  lemma AllocateKeepsInv(s: State, i: nat, late: bool)
    requires Inv(s) && Enabled(s, Enter(i, late)) && Allocates(s.pools, s.reqs[i], late)
    ensures Inv(EnterState(s, i, late))
  {
    var r := s.reqs[i];
    var r' := Pass(s.pools, r, late);
    var s' := EnterState(s, i, late);
    TakeFits(s.pools, r.mem, r.cpu, r.isAsync);
    assert RequestsInv(s') by {
      SplitFits(s.pools, r.mem, r.cpu, r.isAsync);
    }
    assert UsedIsSum(s') && s'.waiters == Sum(s'.reqs, WaiterOf) by {
      Replace(s.reqs, i, r');
    }
    assert WakeupComing(s') by {
      AllocationReadiesNobody(s, i, r', s'.pools);
    }
  }

  lemma EnterKeepsInv(s: State, i: nat, late: bool)
    requires Inv(s) && Enabled(s, Enter(i, late))
    ensures Inv(EnterState(s, i, late))
  {
    if Allocates(s.pools, s.reqs[i], late) {
      AllocateKeepsInv(s, i, late);
    } else {
      ReplaceKeepsInv(s, i, Pass(s.pools, s.reqs[i], late));
    }
  }

  /** Closing gives back exactly what the token held, and announces a broadcast. */
  lemma CloseKeepsInv(s: State, i: nat)
    requires Inv(s) && i < |s.reqs|
    ensures Inv(CloseToken(s, i))
  {
    var r := s.reqs[i];
    if r.tok.Open? {
      var s' := CloseToken(s, i);
      SumBounds(s.reqs, RamAsyncOf);
      SumBounds(s.reqs, RamSyncOf);
      SumBounds(s.reqs, CpuAsyncOf);
      SumBounds(s.reqs, CpuSyncOf);
      assert RamAsyncOf(s.reqs[i]) == r.shares.ramAsync && RamSyncOf(s.reqs[i]) == r.shares.ramSync
          && CpuAsyncOf(s.reqs[i]) == r.shares.cpuAsync && CpuSyncOf(s.reqs[i]) == r.shares.cpuSync;
      Replace(s.reqs, i, r.(tok := Draining));
      assert s'.reqs[i].tok.Draining?;
    }
  }

  lemma AskKeepsInv(s: State, step: Step)
    requires Inv(s) && step.Ask? && Enabled(s, step)
    ensures Inv(Apply(s, step))
  {
    var s' := Apply(s, step);
    var r := s'.reqs[|s.reqs|];
    SumAppend(s.reqs, r, RamAsyncOf);
    SumAppend(s.reqs, r, RamSyncOf);
    SumAppend(s.reqs, r, CpuAsyncOf);
    SumAppend(s.reqs, r, CpuSyncOf);
    SumAppend(s.reqs, r, WaiterOf);
    if SomeDraining(s.reqs) {
      var j :| 0 <= j < |s.reqs| && s.reqs[j].tok.Draining?;
      assert s'.reqs[j].tok.Draining?;
    }
  }

  lemma WatchKeepsInv(s: State, i: nat)
    requires Inv(s) && Enabled(s, Watch(i))
    ensures Inv(Apply(s, Watch(i)))
  {
    var r := s.reqs[i].(watched := true);
    if Waiting(s.reqs[i]) {
      // The broadcast wakes the request itself, so nothing is asked of a watched sleeper.
      var s' := Apply(s, Watch(i));
      assert UsedIsSum(s') && s'.waiters == Sum(s'.reqs, WaiterOf) by {
        Replace(s.reqs, i, r);
        WakeSums(s.reqs[i := r]);
      }
    } else {
      ReplaceKeepsInv(s, i, r);
    }
  }

  lemma BroadcastKeepsInv(s: State, i: nat)
    requires Inv(s) && Enabled(s, Broadcast(i))
    ensures Inv(Apply(s, Broadcast(i)))
  {
    Replace(s.reqs, i, s.reqs[i].(tok := Closed));
    WakeKeepsInv(s.(reqs := s.reqs[i := s.reqs[i].(tok := Closed)]));
  }

  lemma StepKeepsInv(s: State, step: Step)
    requires Inv(s) && Enabled(s, step)
    ensures Inv(Apply(s, step))
  {
    match step
    case Ask(_, _, _, _) => AskKeepsInv(s, step);
    case Enter(i, late) => EnterKeepsInv(s, i, late);
    case Cancel(i) => ReplaceKeepsInv(s, i, s.reqs[i].(ctxDone := true));
    case Watch(i) => WatchKeepsInv(s, i);
    case Deliver(i) => ReplaceKeepsInv(s, i, s.reqs[i].(pc := Delivered));
    case Abandon(i) =>
      CloseKeepsInv(s, i);
      var c := CloseToken(s, i);
      ReplaceKeepsInv(c, i, c.reqs[i].(pc := Gone));
    case Close(i) => CloseKeepsInv(s, i);
    case Broadcast(i) => BroadcastKeepsInv(s, i);
  }

  // ------------------------------------------------------------------------- runs

  ghost predicate IsRun(run: seq<State>, steps: seq<Step>) {
    && |run| == |steps| + 1
    && (exists linux, ram, cpu :: run[0] == State(Initial(linux, ram, cpu), 0, []))
    && forall i :: 0 <= i < |steps| ==> Enabled(run[i], steps[i]) && run[i + 1] == Apply(run[i], steps[i])
  }

  lemma {:induction false} RunKeepsInv(run: seq<State>, steps: seq<Step>, n: nat)
    requires IsRun(run, steps) && n < |run|
    ensures Inv(run[n])
  {
    if n == 0 {
      var linux, ram, cpu :| run[0] == State(Initial(linux, ram, cpu), 0, []);
      InitialIsSound(linux, ram, cpu);
    } else {
      RunKeepsInv(run, steps, n - 1);
      StepKeepsInv(run[n - 1], steps[n - 1]);
    }
  }

  /** Conservation: each used counter is the sum of the unclosed tokens' shares
      and stays within its total, the shares of a token add up to its request,
      and an async token holds nothing of the sync reserve. */
  lemma ResourcesAreConserved(run: seq<State>, steps: seq<Step>, n: nat)
    requires IsRun(run, steps) && n < |run|
    ensures UsedIsSum(run[n]) && Within(run[n].pools.used, run[n].pools.total)
    ensures forall i :: 0 <= i < |run[n].reqs| && !run[n].reqs[i].tok.NoTok? ==>
              var r := run[n].reqs[i];
              && r.shares.ramAsync + r.shares.ramSync == r.mem
              && r.shares.cpuAsync + r.shares.cpuSync == r.cpu
              && (r.isAsync ==> r.shares.ramSync == 0 && r.shares.cpuSync == 0)
  {
    RunKeepsInv(run, steps, n);
  }

  /** No leaked token: while a token is unclosed, its goroutine is still offering it
      or somebody received it; and the waiter count is the number of waiters. */
  lemma NoTokenLeaks(run: seq<State>, steps: seq<Step>, n: nat)
    requires IsRun(run, steps) && n < |run|
    ensures forall i :: 0 <= i < |run[n].reqs| && run[n].reqs[i].tok.Open? ==>
              run[n].reqs[i].pc.Offering? || run[n].reqs[i].pc.Delivered?
    ensures run[n].waiters == Sum(run[n].reqs, WaiterOf)
  {
    RunKeepsInv(run, steps, n);
  }

  /** No lost wakeup: a sleeper that could go on, or whose context has ended, always
      has an enabled step of another goroutine that wakes it. */
  lemma NoLostWakeup(run: seq<State>, steps: seq<Step>, n: nat, i: nat) returns (wake: Step)
    requires IsRun(run, steps) && n < |run| && i < |run[n].reqs|
    requires run[n].reqs[i].pc.Sleeping?
    requires Ready(run[n].pools, run[n].reqs[i]) || run[n].reqs[i].ctxDone
    ensures Enabled(run[n], wake) && (wake.Broadcast? || wake == Watch(i))
    ensures i < |Apply(run[n], wake).reqs| && Apply(run[n], wake).reqs[i].pc.Woken?
  {
    RunKeepsInv(run, steps, n);
    var s := run[n];
    if s.reqs[i].ctxDone {
      wake := Watch(i);
    } else {
      var j: nat :| j < |s.reqs| && s.reqs[j].tok.Draining?;
      wake := Broadcast(j);
    }
  }

  /** Once every token is closed nobody sleeps for one: all requests that were let in
      are possible, and what is possible is available on the idle machine. */
  lemma NobodyStarvesAtRest(run: seq<State>, steps: seq<Step>, n: nat, i: nat)
    requires IsRun(run, steps) && n < |run| && i < |run[n].reqs|
    requires forall j :: 0 <= j < |run[n].reqs| ==> run[n].reqs[j].tok.NoTok? || run[n].reqs[j].tok.Closed?
    ensures run[n].pools.used == NO_SHARES
    ensures run[n].reqs[i].kind.Blocking? ==>
              Available(run[n].pools, run[n].reqs[i].mem, run[n].reqs[i].cpu, run[n].reqs[i].isAsync)
              && !run[n].reqs[i].pc.Sleeping?
    ensures run[n].reqs[i].kind.AsyncSignal? && run[n].pools.ramHigh > 0 && run[n].pools.cpuHigh > 0 ==>
              !run[n].reqs[i].pc.Sleeping?
  {
    RunKeepsInv(run, steps, n);
    var s := run[n];
    SumZero(s.reqs, RamAsyncOf);
    SumZero(s.reqs, RamSyncOf);
    SumZero(s.reqs, CpuAsyncOf);
    SumZero(s.reqs, CpuSyncOf);
    IdleServesThePossible(s.pools, s.reqs[i].mem, s.reqs[i].cpu, s.reqs[i].isAsync);
    assert RequestInv(s.pools, s.reqs[i]);
  }

  /** Closing a token again changes nothing, at whatever point of the run. */
  lemma CloseIsIdempotent(s: State, i: nat)
    requires Enabled(s, Close(i))
    ensures Enabled(Apply(s, Close(i)), Close(i))
    ensures Apply(Apply(s, Close(i)), Close(i)) == Apply(s, Close(i))
  {
  }
}
