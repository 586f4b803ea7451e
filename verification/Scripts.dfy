/** Scripts of steps on a state machine, given by its partial step function. */
module Scripts {
  import opened Words

  /** Where a script leads: `None` if one of its steps is not enabled. */
  function Execute<S, T>(next: (S, T) -> Option<S>, s: S, script: seq<T>): Option<S>
    decreases |script|
  {
    if script == [] then Some(s)
    else
      var m := next(s, script[0]);
      if m.None? then None else Execute(next, m.value, script[1..])
  }

  /** `script` runs from `s` and ends in `m`. */
  ghost predicate Runs<S, T>(next: (S, T) -> Option<S>, s: S, script: seq<T>, m: S) {
    Execute(next, s, script) == Some(m)
  }

  lemma Begin<S, T>(next: (S, T) -> Option<S>, s: S)
    ensures Runs(next, s, [], s)
  {
  }

  lemma {:induction false} ExecuteOn<S, T>(next: (S, T) -> Option<S>, s: S, script: seq<T>, m: S, step: T)
    requires Execute(next, s, script) == Some(m)
    ensures Execute(next, s, script + [step]) == next(m, step)
    decreases |script|
  {
    if script == [] {
      assert script + [step] == [step] && [step][1..] == [];
    } else {
      assert (script + [step])[1..] == script[1..] + [step];
      ExecuteOn(next, next(s, script[0]).value, script[1..], m, step);
    }
  }

  /** One more step of a script. */
  lemma Then<S, T>(next: (S, T) -> Option<S>, s: S, script: seq<T>, m: S, step: T) returns (script': seq<T>, m': S)
    requires Runs(next, s, script, m) && next(m, step).Some?
    ensures script' == script + [step] && next(m, step) == Some(m') && Runs(next, s, script', m')
  {
    ExecuteOn(next, s, script, m, step);
    script', m' := script + [step], next(m, step).value;
  }
}
