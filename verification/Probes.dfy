/**
 The per-pod probe agents (`probes/probes.go`): the readiness debounce with its
 backoff, and which agent's results the manager keeps.
 */
module Probes {
  import opened Wrappers

  // Durations are in nanoseconds.
  const INITIAL_INTERVAL := 100_000_000
  const BACKOFF_MAX := 1_000_000_000
  const STEADY_INTERVAL := 5_000_000_000
  const FAILURE_THRESHOLD := 3

  // ---------------------------------------------------------------- debounce

  /** Growing by one half is exact here: every interval below the cap is an even number of nanoseconds. */
  function NextInitialInterval(d: nat): nat {
    if d * 3 / 2 < BACKOFF_MAX then d * 3 / 2 else BACKOFF_MAX
  }

  /** The interval after `k` not-ready ticks while not ready. */
  function Backoff(k: nat): nat {
    if k == 0 then INITIAL_INTERVAL else NextInitialInterval(Backoff(k - 1))
  }

  lemma {:induction false} BackoffShape(k: nat)
    ensures INITIAL_INTERVAL <= Backoff(k) <= BACKOFF_MAX
    ensures Backoff(k) <= Backoff(k + 1)
    ensures Backoff(k) == BACKOFF_MAX <==> 6 <= k
  {
    if k > 6 {
      BackoffShape(k - 1);
    } else {
      assert Backoff(1) == 150_000_000;
      assert Backoff(2) == 225_000_000;
      assert Backoff(3) == 337_500_000;
      assert Backoff(4) == 506_250_000;
      assert Backoff(5) == 759_375_000;
      assert Backoff(6) == BACKOFF_MAX;
      assert Backoff(7) == BACKOFF_MAX;
    }
  }

  /** How many results in a row, at the end, are not ready. */
  function TrailingFailures(all: seq<bool>): (n: nat)
    ensures n <= |all|
    decreases |all|
  {
    if all == [] || all[|all| - 1] then 0 else 1 + TrailingFailures(all[..|all| - 1])
  }

  /** Some result is ready, and fewer than three follow the last such. */
  predicate Debounced(all: seq<bool>) {
    TrailingFailures(all) < |all| && TrailingFailures(all) < FAILURE_THRESHOLD
  }

  lemma {:induction false} TrailingFailuresEnd(all: seq<bool>)
    ensures var n := TrailingFailures(all);
      (forall i :: |all| - n <= i < |all| ==> !all[i]) && (n < |all| ==> all[|all| - n - 1])
    decreases |all|
  {
    if all != [] && !all[|all| - 1] {
      TrailingFailuresEnd(all[..|all| - 1]);
    }
  }

  /** Debounced readiness is a window of three: one of the last three results is ready. */
  lemma DebouncedIsWindow(all: seq<bool>)
    ensures Debounced(all) <==> exists i :: 0 <= i < |all| && |all| - FAILURE_THRESHOLD <= i && all[i]
  {
    TrailingFailuresEnd(all);
    var n := TrailingFailures(all);
    if n < |all| && n < FAILURE_THRESHOLD {
      assert all[|all| - n - 1];
    }
  }

  /** How many not-ready ticks the agent has backed off for: since it started, or since the third failure. */
  function BackoffSteps(all: seq<bool>): nat
    requires all != [] && !Debounced(all)
  {
    var n := TrailingFailures(all);
    if n == |all| then n - 1 else n - FAILURE_THRESHOLD
  }

  /** The sleep before the next tick, from the results so far alone. */
  function Interval(all: seq<bool>): nat
    requires all != []
  {
    if Debounced(all) then STEADY_INTERVAL else Backoff(BackoffSteps(all))
  }

  /**
   The sleeps, as durations: five seconds while ready; a tenth of a second at the start
   and right after the third failure in a row; then half as much again with every further
   failure, up to one second.
   */
  lemma IntervalIs(all: seq<bool>)
    requires all != []
    ensures Debounced(all) ==> Interval(all) == 5_000_000_000
    ensures !Debounced(all) ==> 100_000_000 <= Interval(all) <= 1_000_000_000
    ensures |all| == 1 && !all[0] ==> Interval(all) == 100_000_000
    ensures |all| >= 4 && all[|all| - 4] && !all[|all| - 3] && !all[|all| - 2] && !all[|all| - 1] ==> Interval(all) == 100_000_000
    ensures !Debounced(all) ==>
              Interval(all + [false]) == if Interval(all) * 3 / 2 < 1_000_000_000 then Interval(all) * 3 / 2 else 1_000_000_000
  {
    if !Debounced(all) {
      BackoffShape(BackoffSteps(all));
      Tick(all, false);
    }
    if |all| >= 4 && all[|all| - 4] && !all[|all| - 3] && !all[|all| - 2] && !all[|all| - 1] {
      TrailingFailuresEnd(all);
      assert TrailingFailures(all) == 3;
    }
  }

  /** The ticks at which the debounced readiness changes. */
  function Flips(all: seq<bool>): seq<nat>
    requires all != []
    decreases |all|
  {
    if |all| == 1 then []
    else
      var before := all[..|all| - 1];
      Flips(before) + if Debounced(before) != Debounced(all) then [|all| - 1] else []
  }

  lemma TrailingFailuresSnoc(all: seq<bool>, ready: bool)
    ensures TrailingFailures(all + [ready]) == if ready then 0 else 1 + TrailingFailures(all)
  {
    assert (all + [ready])[..|all|] == all;
  }

  /** What one more result makes of the readiness and the backoff. */
  lemma Tick(all: seq<bool>, ready: bool)
    requires all != []
    ensures var next := all + [ready];
      && TrailingFailures(next) == (if ready then 0 else 1 + TrailingFailures(all))
      && Flips(next) == Flips(all) + (if Debounced(all) != Debounced(next) then [|all|] else [])
      && (ready ==> Debounced(next))
      && (!ready && !Debounced(all) ==> !Debounced(next) && BackoffSteps(next) == BackoffSteps(all) + 1)
      && (!ready && Debounced(all) && !Debounced(next) ==> BackoffSteps(next) == 0)
  {
    TrailingFailuresSnoc(all, ready);
    assert (all + [ready])[..|all|] == all;
  }

  /**
   The agent loop, until its context ends or it loses the key: `first` is the
   synchronous probe of `Start`, `results` what its ticks see, `notified` the ticks
   at which it calls `onUpdate`, `interval` its next sleep.
   */
  method RunAgent(first: bool, results: seq<bool>) returns (ready: bool, interval: nat, notified: seq<nat>)
    ensures var all := [first] + results;
      ready <==> exists i :: 0 <= i < |all| && |all| - FAILURE_THRESHOLD <= i && all[i]
    ensures interval == Interval([first] + results)
    ensures if ready then interval == 5_000_000_000 else 100_000_000 <= interval <= 1_000_000_000
    ensures notified == Flips([first] + results)
  {
    ready, interval, notified := first, INITIAL_INTERVAL, [];
    if first {
      interval := STEADY_INTERVAL;
    }
    var failures := 0;
    ghost var all := [first];
    for i := 0 to |results|
      invariant all == [first] + results[..i] && Tracks(all, ready, failures, interval, notified)
    {
      ready, failures, interval, notified := OneTick(all, i, results[i], ready, failures, interval, notified);
      all := all + [results[i]];
    }
    assert all == [first] + results;
    DebouncedIsWindow(all);
    IntervalIs(all);
  }

  /** The loop's variables say what the results so far say. */
  ghost predicate Tracks(all: seq<bool>, ready: bool, failures: nat, interval: nat, notified: seq<nat>) {
    && all != [] && (ready <==> Debounced(all)) && interval == Interval(all) && notified == Flips(all)
    && (ready ==> failures == TrailingFailures(all))
  }

  /** One round of the loop. */
  method OneTick(ghost all: seq<bool>, i: nat, result: bool, ready: bool, failures: nat, interval: nat, notified: seq<nat>)
    returns (ready': bool, failures': nat, interval': nat, notified': seq<nat>)
    requires |all| == i + 1 && Tracks(all, ready, failures, interval, notified)
    ensures Tracks(all + [result], ready', failures', interval', notified')
  {
    ready', failures', interval', notified' := ready, failures, interval, notified;
    Tick(all, result);
    if result && !ready {
      ready', failures', interval' := true, 0, STEADY_INTERVAL;
      notified' := notified + [i + 1];
    } else if result {
      failures' := 0;
    } else if !ready {
      interval' := NextInitialInterval(interval);
    } else {
      failures' := failures + 1;
      if failures' >= FAILURE_THRESHOLD {
        ready', interval' := false, INITIAL_INTERVAL;
        notified' := notified + [i + 1];
      }
    }
  }

  /** The results around a flip: a success after three failures, or after none yet; or the third failure after a success. */
  predicate Earned(all: seq<bool>, tick: nat) {
    && 1 <= tick < |all|
    && (all[tick] ==> forall i :: 0 <= i < tick && tick - FAILURE_THRESHOLD <= i ==> !all[i])
    && (!all[tick] ==> FAILURE_THRESHOLD <= tick && all[tick - 3] && !all[tick - 2] && !all[tick - 1])
  }

  lemma LastFlipIsEarned(before: seq<bool>, ready: bool)
    requires before != []
    ensures Debounced(before) != Debounced(before + [ready]) <==> Earned(before + [ready], |before|)
  {
    TrailingFailuresSnoc(before, ready);
    TrailingFailuresEnd(before);
    var all, n := before + [ready], TrailingFailures(before);
    assert forall i :: 0 <= i < |before| ==> all[i] == before[i];
    if n < |before| {
      assert all[|before| - n - 1];
    }
    if n >= 3 {
      assert !all[|before| - 3];
    }
  }

  /** One failure never flips, and neither do two: the flips are exactly the earned ones. */
  lemma {:induction false} FlipsAreEarned(all: seq<bool>, tick: nat)
    requires all != []
    ensures tick in Flips(all) <==> Earned(all, tick)
    decreases |all|
  {
    if |all| > 1 {
      var before := all[..|all| - 1];
      assert before + [all[|all| - 1]] == all;
      LastFlipIsEarned(before, all[|all| - 1]);
      FlipsAreEarned(before, tick);
    }
  }

  // ---------------------------------------------------------------- ownership

  type Key = string
  type Agent = nat

  datatype Outcome = Outcome(ready: bool, message: string)

  /** `issued` agents have been created so far; agents are told apart as pointers are. */
  datatype Table = Table(results: map<Key, Outcome>, agents: map<Key, Agent>, issued: nat) {
    function Set(key: Key, r: Outcome): Table {
      this.(results := results[key := r])
    }

    function Forget(key: Key): Table {
      this.(results := results - {key}, agents := agents - {key})
    }

    function Register(key: Key): Table {
      this.(agents := agents[key := issued], issued := issued + 1)
    }

    predicate Owns(key: Key, ag: Agent) {
      key in agents && agents[key] == ag
    }

    function SetOwned(key: Key, ag: Agent, r: Outcome): Table {
      if Owns(key, ag) then Set(key, r) else this
    }
  }

  class Manager {
    var results: map<Key, Outcome>
    var agents: map<Key, Agent>
    var issued: nat

    function State(): Table
      reads this
    {
      Table(results, agents, issued)
    }

    constructor ()
      ensures State() == Table(map[], map[], 0)
    {
      results, agents, issued := map[], map[], 0;
    }

    method Set(key: Key, r: Outcome)
      modifies this
      ensures agents == old(agents) && issued == old(issued) && key in results && results[key] == r
      ensures forall k :: k != key ==> (k in results <==> k in old(results)) && (k in results ==> results[k] == old(results)[k])
      ensures State() == old(State()).Set(key, r)
    {
      results := results[key := r];
    }

    /** The zero result when none is recorded. */
    method Get(key: Key) returns (r: Outcome)
      ensures r == if key in State().results then State().results[key] else Outcome(false, "")
    {
      if key in results {
        return results[key];
      }
      return Outcome(false, "");
    }

    /** `canceled` is the agent whose context ends. */
    method Forget(key: Key) returns (canceled: Option<Agent>)
      modifies this
      ensures State() == old(State()).Forget(key)
      ensures forall ag: Agent :: canceled == Some(ag) <==> old(State()).Owns(key, ag)
    {
      canceled := if key in agents then Some(agents[key]) else None;
      agents := agents - {key};
      results := results - {key};
    }

    /** The first section of `Start`. */
    method Register(key: Key) returns (ag: Agent, canceled: Option<Agent>)
      modifies this
      ensures State() == old(State()).Register(key) && State().Owns(key, ag)
      ensures forall prev: Agent :: canceled == Some(prev) <==> old(State()).Owns(key, prev)
    {
      canceled := None;
      if key in agents {
        canceled := Some(agents[key]);
        agents := agents - {key};
      }
      ag := issued;
      issued := issued + 1;
      agents := agents[key := ag];
    }

    method SetOwned(key: Key, ag: Agent, r: Outcome) returns (owned: bool)
      modifies this
      ensures State() == old(State()).SetOwned(key, ag, r)
      ensures owned <==> old(State()).Owns(key, ag)
    {
      if key !in agents || agents[key] != ag {
        return false;
      }
      results := results[key := r];
      owned := true;
    }
  }

  datatype Event =
    | SetEvent(key: Key, r: Outcome)
    | ForgetEvent(key: Key)
    | RegisterEvent(key: Key)
    | SetOwnedEvent(key: Key, ag: Agent, r: Outcome)

  function Next(t: Table, e: Event): Table {
    match e
    case SetEvent(key, r) => t.Set(key, r)
    case ForgetEvent(key) => t.Forget(key)
    case RegisterEvent(key) => t.Register(key)
    case SetOwnedEvent(key, ag, r) => t.SetOwned(key, ag, r)
  }

  function Run(t: Table, es: seq<Event>): Table
    decreases |es|
  {
    if es == [] then t else Run(Next(t, es[0]), es[1..])
  }

  /** The run without what `ag` reports for `key`. */
  function Without(es: seq<Event>, key: Key, ag: Agent): seq<Event>
    decreases |es|
  {
    if es == [] then []
    else
      var rest := Without(es[1..], key, ag);
      if es[0].SetOwnedEvent? && es[0].key == key && es[0].ag == ag then rest else [es[0]] + rest
  }

  /** An agent that does not hold the key is as good as gone: whatever it reports, the table is what it is without. */
  lemma {:induction false} RetiredAgentIsSilent(t: Table, es: seq<Event>, key: Key, ag: Agent)
    requires ag < t.issued && !t.Owns(key, ag)
    ensures Run(t, es) == Run(t, Without(es, key, ag)) && !Run(t, es).Owns(key, ag)
    decreases |es|
  {
    if es != [] {
      RetiredAgentIsSilent(Next(t, es[0]), es[1..], key, ag);
      var rest := Without(es[1..], key, ag);
      assert ([es[0]] + rest)[1..] == rest;
    }
  }

  /** So replacing or forgetting an agent silences it for good, while its goroutine may still be probing. */
  lemma ReplacedAgentIsSilent(t: Table, e: Event, es: seq<Event>, key: Key, ag: Agent)
    requires t.Owns(key, ag) && ag < t.issued && (e == RegisterEvent(key) || e == ForgetEvent(key))
    ensures Run(Next(t, e), es) == Run(Next(t, e), Without(es, key, ag)) && !Run(Next(t, e), es).Owns(key, ag)
  {
    RetiredAgentIsSilent(Next(t, e), es, key, ag);
  }

  const NoProbes := Table(map[], map[], 0)

  /** How many agents the events have created. */
  function Issued(es: seq<Event>): nat
    decreases |es|
  {
    if es == [] then 0
    else Issued(es[..|es| - 1]) + if es[|es| - 1].RegisterEvent? then 1 else 0
  }

  /** The agent of the last start of the key, unless it was forgotten since. */
  function Holder(es: seq<Event>, key: Key): Option<Agent>
    decreases |es|
  {
    if es == [] then None
    else
      var before, last := es[..|es| - 1], es[|es| - 1];
      if last == RegisterEvent(key) then Some(Issued(before))
      else if last == ForgetEvent(key) then None
      else Holder(before, key)
  }

  /** The last report for the key, by `Set` or by the agent that then held it, unless it was forgotten since. */
  function LastReport(es: seq<Event>, key: Key): Option<Outcome>
    decreases |es|
  {
    if es == [] then None
    else
      var before, last := es[..|es| - 1], es[|es| - 1];
      if last.SetEvent? && last.key == key then Some(last.r)
      else if last.SetOwnedEvent? && last.key == key && Holder(before, key) == Some(last.ag) then Some(last.r)
      else if last == ForgetEvent(key) then None
      else LastReport(before, key)
  }

  lemma {:induction false} RunSnoc(t: Table, es: seq<Event>, e: Event)
    ensures Run(t, es + [e]) == Next(Run(t, es), e)
    decreases |es|
  {
    if es == [] {
      assert [] + [e] == [e] && [e][1..] == [];
    } else {
      assert (es + [e])[1..] == es[1..] + [e];
      RunSnoc(Next(t, es[0]), es[1..], e);
    }
  }

  /** What `Get` reads after any run: the last report that counted, read off the run itself. */
  lemma {:induction false} ResultIsLastReport(es: seq<Event>, key: Key)
    ensures var t := Run(NoProbes, es);
            && t.issued == Issued(es)
            && (forall ag: Agent :: t.Owns(key, ag) <==> Holder(es, key) == Some(ag))
            && (forall r :: (key in t.results && t.results[key] == r) <==> LastReport(es, key) == Some(r))
    decreases |es|
  {
    if es != [] {
      var before, last := es[..|es| - 1], es[|es| - 1];
      ResultIsLastReport(before, key);
      RunSnoc(NoProbes, before, last);
      assert before + [last] == es;
    }
  }

  ghost predicate NeverStarted(es: seq<Event>, key: Key) {
    forall i :: 0 <= i < |es| ==> !(es[i].RegisterEvent? && es[i].key == key) && !(es[i].SetEvent? && es[i].key == key)
  }

  /** A forgotten key has no result until a later start or set, whatever is still in flight. */
  lemma {:induction false} ForgottenStaysForgotten(t: Table, es: seq<Event>, key: Key)
    requires key !in t.agents && key !in t.results && NeverStarted(es, key)
    ensures key !in Run(t, es).agents && key !in Run(t, es).results
    decreases |es|
  {
    if es != [] {
      assert !(es[0].RegisterEvent? && es[0].key == key);
      ForgottenStaysForgotten(Next(t, es[0]), es[1..], key);
    }
  }
}
