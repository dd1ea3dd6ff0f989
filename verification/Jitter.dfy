/** When the batch loop fires (enclave/src/batch.rs, `decide_batch_action` and `batch_settlement_loop`). */
module Jitter {
  import opened Prelude
  import opened BatchSelect

  const MAX_BATCH_JITTER_SEC: int := 30

  datatype Decision = Skip | Wait | Fire

  /** What one pass of the loop sees: the clock, the vault's cursors and a random delay. */
  datatype Tick = Tick(now: int, elapsed: int, providers: nat, oldestAge: int, sampled: int)

  predicate Overdue(tick: Tick) { tick.oldestAge >= MAX_SETTLEMENT_DELAY_SEC }

  /** There is something to pay, it is time, and enough providers are in. */
  predicate GatesOpen(tick: Tick, config: Config)
  {
    && tick.providers != 0
    && (tick.elapsed >= config.batchWindow || tick.providers >= MAX_SETTLEMENTS_PER_TX || Overdue(tick))
    && (tick.providers >= config.minProviders || Overdue(tick))
  }

  /** `decide_batch_action`: the decision and the jitter deadline to carry over. */
  function Decide(tick: Tick, deadline: Option<int>, config: Config): (Decision, Option<int>)
  {
    if tick.providers == 0 then (Skip, None)
    else if !(tick.elapsed >= config.batchWindow || tick.providers >= MAX_SETTLEMENTS_PER_TX || Overdue(tick)) then (Skip, None)
    else if tick.providers < config.minProviders && !Overdue(tick) then (Skip, None)
    else if Overdue(tick) then (Fire, None)
    else
      var until := if deadline.Some? then deadline.value else tick.now + tick.sampled;
      if tick.now < until then (Wait, Some(until)) else (Fire, None)
  }

  /** The carried deadline before tick `i`, starting the loop without one. */
  function DeadlineAt(ticks: seq<Tick>, i: nat, config: Config): Option<int>
    requires i <= |ticks|
  {
    if i == 0 then None else Decide(ticks[i - 1], DeadlineAt(ticks, i - 1, config), config).1
  }

  function DecisionAt(ticks: seq<Tick>, i: nat, config: Config): Decision
    requires i < |ticks|
  {
    Decide(ticks[i], DeadlineAt(ticks, i, config), config).0
  }

  /** The loop over the ticks it has seen so far. */
  method BatchLoop(ticks: seq<Tick>, config: Config) returns (decisions: seq<Decision>)
    ensures |decisions| == |ticks| && forall i :: 0 <= i < |ticks| ==> decisions[i] == DecisionAt(ticks, i, config)
  {
    decisions := [];
    var deadline: Option<int> := None;
    for i := 0 to |ticks|
      invariant |decisions| == i && deadline == DeadlineAt(ticks, i, config)
      invariant forall j :: 0 <= j < i ==> decisions[j] == DecisionAt(ticks, j, config)
    {
      var (decision, next) := Decide(ticks[i], deadline, config);
      decisions := decisions + [decision];
      deadline := next;
    }
  }

  /** Time does not run backwards and the delay is drawn from 0 to 30 seconds. */
  ghost predicate Clocked(ticks: seq<Tick>)
  {
    && (forall i, j :: 0 <= i < j < |ticks| ==> ticks[i].now <= ticks[j].now)
    && (forall i :: 0 <= i < |ticks| ==> 0 <= ticks[i].sampled <= MAX_BATCH_JITTER_SEC)
  }

  /** The loop fires exactly when the gates are open and either something is overdue or the deadline has come. */
  lemma FiresWhen(tick: Tick, deadline: Option<int>, config: Config)
    ensures Decide(tick, deadline, config).0 == Skip <==> !GatesOpen(tick, config)
    ensures GatesOpen(tick, config) && Overdue(tick) ==> Decide(tick, deadline, config) == (Fire, None)
    ensures Decide(tick, deadline, config).1.Some? <==> Decide(tick, deadline, config).0 == Wait
  {
  }

  /** Something overdue, with anyone at all to pay, fires at once. */
  lemma OverdueFiresNow(ticks: seq<Tick>, i: nat, config: Config)
    requires i < |ticks| && ticks[i].providers != 0 && Overdue(ticks[i])
    ensures DecisionAt(ticks, i, config) == Fire
  {
  }

  /** While the gates stay open and nothing fires, the deadline is one that was set by the first of those ticks or before. */
  lemma {:induction false} DeadlineStays(ticks: seq<Tick>, i: nat, j: nat, config: Config)
    requires Clocked(ticks) && i < j <= |ticks|
    requires forall m :: i <= m < j ==> GatesOpen(ticks[m], config) && DecisionAt(ticks, m, config) != Fire
    ensures DeadlineAt(ticks, j, config).Some? && DeadlineAt(ticks, j, config).value <= ticks[i].now + MAX_BATCH_JITTER_SEC
    decreases j
  {
    if j == i + 1 {
      DeadlineBounded(ticks, i, config);
    } else {
      DeadlineStays(ticks, i, j - 1, config);
    }
  }

  /** A carried deadline is never more than the longest jitter away. */
  lemma {:induction false} DeadlineBounded(ticks: seq<Tick>, i: nat, config: Config)
    requires Clocked(ticks) && i < |ticks|
    ensures DeadlineAt(ticks, i, config).Some? ==> DeadlineAt(ticks, i, config).value <= ticks[i].now + MAX_BATCH_JITTER_SEC
    decreases i
  {
    if i > 0 { DeadlineBounded(ticks, i - 1, config); }
  }

  /**
   * Jitter is bounded over whole runs: if the gates are open at every tick from `i` to `j`, and `j` comes at least 30
   * seconds after `i`, then the loop has fired by tick `j`.
   */
  lemma FiresInTime(ticks: seq<Tick>, i: nat, j: nat, config: Config)
    requires Clocked(ticks) && i <= j < |ticks| && ticks[j].now >= ticks[i].now + MAX_BATCH_JITTER_SEC
    requires forall m :: i <= m <= j ==> GatesOpen(ticks[m], config)
    ensures exists m :: i <= m <= j && DecisionAt(ticks, m, config) == Fire
  {
    if forall m :: i <= m < j ==> DecisionAt(ticks, m, config) != Fire {
      if i < j {
        DeadlineStays(ticks, i, j, config);
        assert DecisionAt(ticks, j, config) == Fire;
      }
    }
  }
}
