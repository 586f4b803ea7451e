/** What the steps around the resource tracker achieve: the life of a request and its token, as
    scripts of steps with their whole effect. */
module ResourceLife {
  import opened Words
  import opened Resource
  import opened ResourceRuns
  import opened Scripts

  function Next(s: State, step: Step): Option<State> { if Enabled(s, step) then Some(Apply(s, step)) else None }

  function Fresh(kind: Kind, mb: u64, cpu: u64, isAsync: bool): Request {
    Request(kind, Bytes(mb), cpu, isAsync, false, false, Start, NO_SHARES, NoTok)
  }

  // ----------------------------------------------------------------------------- serving

  /** A request that is possible and available gets a token of its own size. */
  lemma RequestIsServed(s: State, kind: Kind, mb: u64, cpu: u64, isAsync: bool) returns (script: seq<Step>, s': State)
    requires Sound(s.pools) && !kind.AsyncSignal? && Possible(s.pools, Bytes(mb), cpu, isAsync)
    requires Available(s.pools, Bytes(mb), cpu, isAsync)
    ensures var i, sh := |s.reqs|, Split(s.pools, Bytes(mb), cpu, isAsync);
      && script == [Ask(kind, mb, cpu, isAsync), Enter(i, false), Deliver(i)] && Runs(Next, s, script, s')
      && s' == State(Take(s.pools, sh), s.waiters,
                     s.reqs + [Fresh(kind, mb, cpu, isAsync).(pc := Delivered, tok := Open, shares := sh)])
  {
    var i := |s.reqs|;
    Begin(Next, s);
    hide Execute, Runs, Split, Take, Available, Possible, Bytes;
    script, s' := Then(Next, s, [], s, Ask(kind, mb, cpu, isAsync));
    script, s' := Then(Next, s, script, s', Enter(i, false));
    script, s' := Then(Next, s, script, s', Deliver(i));
  }

  /** A non-blocking request that is not available is told so, and nothing is taken. */
  lemma RequestIsRefused(s: State, mb: u64, cpu: u64, isAsync: bool) returns (script: seq<Step>, s': State)
    requires !(Possible(s.pools, Bytes(mb), cpu, isAsync) && Available(s.pools, Bytes(mb), cpu, isAsync))
    ensures var i := |s.reqs|;
      && script == [Ask(NonBlocking, mb, cpu, isAsync), Enter(i, false), Deliver(i)] && Runs(Next, s, script, s')
      && s' == s.(reqs := s.reqs + [Fresh(NonBlocking, mb, cpu, isAsync).(pc := Delivered)])
  {
    var i := |s.reqs|;
    Begin(Next, s);
    hide Execute, Runs, Available, Possible, Bytes;
    script, s' := Then(Next, s, [], s, Ask(NonBlocking, mb, cpu, isAsync));
    script, s' := Then(Next, s, script, s', Enter(i, false));
    script, s' := Then(Next, s, script, s', Deliver(i));
  }

  /** A blocking request that is possible but not available waits and is counted. */
  lemma RequestSleeps(s: State, mb: u64, cpu: u64, isAsync: bool) returns (script: seq<Step>, s': State)
    requires Possible(s.pools, Bytes(mb), cpu, isAsync) && !Available(s.pools, Bytes(mb), cpu, isAsync)
    ensures var i := |s.reqs|;
      && script == [Ask(Blocking, mb, cpu, isAsync), Enter(i, false)] && Runs(Next, s, script, s')
      && s' == State(s.pools, s.waiters + 1, s.reqs + [Fresh(Blocking, mb, cpu, isAsync).(pc := Sleeping)])
  {
    var i := |s.reqs|;
    Begin(Next, s);
    hide Execute, Runs, Available, Possible, Bytes;
    script, s' := Then(Next, s, [], s, Ask(Blocking, mb, cpu, isAsync));
    script, s' := Then(Next, s, script, s', Enter(i, false));
  }

  /** The async signal comes at once below the high-water marks, and waits otherwise. */
  lemma AsyncIsSignalled(s: State, mb: u64, cpu: u64, isAsync: bool) returns (script: seq<Step>, s': State)
    ensures var i := |s.reqs|;
      && script == [Ask(AsyncSignal, mb, cpu, isAsync), Enter(i, false)] && Runs(Next, s, script, s')
      && s' == s.(reqs := s.reqs + [Fresh(AsyncSignal, mb, cpu, isAsync).(
                                      pc := if BelowHighWater(s.pools) then Delivered else Sleeping)])
  {
    var i := |s.reqs|;
    Begin(Next, s);
    hide Execute, Runs, Bytes, BelowHighWater;
    script, s' := Then(Next, s, [], s, Ask(AsyncSignal, mb, cpu, isAsync));
    script, s' := Then(Next, s, script, s', Enter(i, false));
  }

  // --------------------------------------------------------------------------- returning

  /** Closing a token gives its shares back, and everybody is woken. */
  lemma TokenIsReturned(s: State, i: nat) returns (script: seq<Step>, s': State)
    requires i < |s.reqs| && s.reqs[i].pc.Delivered? && s.reqs[i].tok.Open?
    ensures script == [Close(i), Broadcast(i)] && Runs(Next, s, script, s')
    ensures s'.pools == Give(s.pools, s.reqs[i].shares) && s'.waiters == s.waiters && |s'.reqs| == |s.reqs|
    ensures s'.reqs[i] == s.reqs[i].(tok := Closed)
    ensures forall j :: 0 <= j < |s.reqs| && j != i ==>
      s'.reqs[j] == if s.reqs[j].pc.Sleeping? then s.reqs[j].(pc := Woken) else s.reqs[j]
  {
    Begin(Next, s);
    hide Execute, Runs, Give;
    script, s' := Then(Next, s, [], s, Close(i));
    script, s' := Then(Next, s, script, s', Broadcast(i));
  }

  /** Taking and giving back a split leaves the pools as they were. */
  lemma TakeAndGive(p: Pools, mem: u64, cpu: u64, isAsync: bool)
    requires Sound(p) && Available(p, mem, cpu, isAsync)
    ensures Give(Take(p, Split(p, mem, cpu, isAsync)), Split(p, mem, cpu, isAsync)) == p
  {
    SplitFits(p, mem, cpu, isAsync);
  }

  /** A sleeper whose request has become available is served after the next broadcast. */
  lemma SleeperIsServed(s: State, i: nat, j: nat) returns (script: seq<Step>, s': State)
    requires i < |s.reqs| && j < |s.reqs| && i != j && s.reqs[j].tok.Draining?
    requires s.reqs[i].kind.Blocking? && s.reqs[i].pc.Sleeping? && !s.reqs[i].ctxDone
    requires Available(s.pools, s.reqs[i].mem, s.reqs[i].cpu, s.reqs[i].isAsync)
    ensures script == [Broadcast(j), Enter(i, false), Deliver(i)] && Runs(Next, s, script, s') && |s'.reqs| == |s.reqs|
    ensures var r := s.reqs[i]; var sh := Split(s.pools, r.mem, r.cpu, r.isAsync);
      && s'.pools == Take(s.pools, sh) && s'.waiters == s.waiters - 1
      && s'.reqs[i] == r.(pc := Delivered, tok := Open, shares := sh)
  {
    Begin(Next, s);
    hide Execute, Runs, Split, Take, Available;
    script, s' := Then(Next, s, [], s, Broadcast(j));
    script, s' := Then(Next, s, script, s', Enter(i, false));
    script, s' := Then(Next, s, script, s', Deliver(i));
  }

  // -------------------------------------------------------------------------- cancelling

  /** A sleeper whose context ends is woken by its own watcher and leaves without a token. */
  lemma CancelledSleeperLeaves(s: State, i: nat, late: bool) returns (script: seq<Step>, s': State)
    requires i < |s.reqs| && s.reqs[i].kind.Blocking? && s.reqs[i].pc.Sleeping? && !s.reqs[i].watched
    ensures script == [Cancel(i), Watch(i), Enter(i, late)] && Runs(Next, s, script, s') && |s'.reqs| == |s.reqs|
    ensures s'.pools == s.pools && s'.waiters == s.waiters - 1
    ensures s'.reqs[i] == s.reqs[i].(pc := Gone, ctxDone := true, watched := true)
  {
    Begin(Next, s);
    hide Execute, Runs, Available;
    script, s' := Then(Next, s, [], s, Cancel(i));
    script, s' := Then(Next, s, script, s', Watch(i));
    script, s' := Then(Next, s, script, s', Enter(i, late));
  }

  /** A token that nobody receives any more is given back by its own goroutine. */
  lemma AbandonedTokenIsReturned(s: State, i: nat) returns (script: seq<Step>, s': State)
    requires i < |s.reqs| && s.reqs[i].pc.Offering? && s.reqs[i].tok.Open?
    ensures script == [Cancel(i), Abandon(i), Broadcast(i)] && Runs(Next, s, script, s') && |s'.reqs| == |s.reqs|
    ensures s'.pools == Give(s.pools, s.reqs[i].shares) && s'.waiters == s.waiters
    ensures s'.reqs[i] == s.reqs[i].(pc := Gone, ctxDone := true, tok := Closed)
  {
    Begin(Next, s);
    hide Execute, Runs, Give;
    script, s' := Then(Next, s, [], s, Cancel(i));
    script, s' := Then(Next, s, script, s', Abandon(i));
    script, s' := Then(Next, s, script, s', Broadcast(i));
  }

  /** A goroutine leaves without having delivered only if its context has ended; only a request that was
      answered closes its token, and only one that may wait has a watcher. */
  lemma {:induction false} LeavesOnlyIfCancelled(run: seq<State>, steps: seq<Step>, n: nat, i: nat)
    requires IsRun(run, steps) && n < |run| && i < |run[n].reqs|
    ensures run[n].reqs[i].pc.Gone? ==> run[n].reqs[i].ctxDone
    ensures n < |steps| && steps[n] == Close(i) ==> run[n].reqs[i].pc.Delivered?
    ensures n < |steps| && steps[n] == Watch(i) ==> run[n].reqs[i].ctxDone && !run[n].reqs[i].kind.NonBlocking?
  {
    if n > 0 {
      assert Enabled(run[n - 1], steps[n - 1]) && run[n] == Apply(run[n - 1], steps[n - 1]);
      if i < |run[n - 1].reqs| { LeavesOnlyIfCancelled(run, steps, n - 1, i); }
    }
  }
}
