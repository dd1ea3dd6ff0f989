/** Runs in which batches are planned between steps and inside settlements and closings. */
module BusyRuns {
  import opened Prelude
  import opened Sums
  import opened VaultTypes
  import opened Channels
  import opened Invariant
  import opened SettlementLemmas
  import opened Steps
  import opened Preservation
  import opened Runs
  import opened InFlight
  import opened InFlightLosses
  import opened InFlightClosing
  import opened LogTotals

  /** A step by itself, which planning between two steps is too, or one with passes inside. */
  datatype Move =
    | Alone(step: Step)
    | WhileSettling(verificationId: Id, settlementId: Id, now: Time, ok: bool, credited: seq<Plan>, recorded: seq<Plan>, undoing: seq<Plan>)
    | WhileClosing(channelId: Id, settlementId: Id, now: Time, ok: bool, plans: seq<Plan>)

  /** The step without the passes. */
  function Plain(m: Move): Step
  {
    match m
    case Alone(step) => step
    case WhileSettling(vid, sid, now, ok, _, _, _) => Settle(vid, sid, now, ok)
    case WhileClosing(id, sid, now, ok, _) => Close(id, sid, now, ok)
  }

  ghost function Made(k: Crypto, v: Vault, m: Move): Outcome
  {
    match m
    case Alone(step) => Live(k, v, step)
    case WhileSettling(vid, sid, now, ok, credited, recorded, undoing) => SettleAmid(v, vid, sid, now, ok, credited, recorded, undoing)
    case WhileClosing(id, sid, now, ok, plans) => CloseAmid(v, id, sid, now, ok, plans)
  }

  /** The step is admissible, and every pass visits the credits it finds. */
  ghost predicate Allowed(v: Vault, m: Move)
  {
    && Admissible(v, Plain(m))
    && (m.WhileSettling? ==> FitAmid(v, m.verificationId, m.settlementId, m.now, m.ok, m.credited, m.recorded, m.undoing))
    && (m.WhileClosing? ==> FitClosing(v, m.channelId, m.settlementId, m.now, m.plans))
  }

  ghost function LossBy(v: Vault, m: Move): int
  {
    match m
    case Alone(step) => LossOf(v, step)
    case WhileSettling(vid, sid, now, ok, credited, recorded, undoing) => AmidLoss(v, vid, now, ok, credited, recorded, undoing)
    case WhileClosing(id, sid, now, ok, plans) => ClosingLoss(v, id, ok, plans)
  }

  predicate Unharmed(v: Vault, m: Move)
  {
    m.WhileSettling? ==> Harmless(v, m.verificationId, m.now, m.ok, m.credited, m.undoing)
  }

  /** One move: its exact loss, and exactly when the invariant survives it. */
  lemma MoveExact(k: Crypto, v: Vault, m: Move)
    requires Inv(k, v) && Allowed(v, m)
    ensures Lost(Made(k, v, m).v) == Lost(v) + LossBy(v, m) && (Inv(k, Made(k, v, m).v) <==> Unharmed(v, m))
  {
    hide Inv, Lost, Live, SettleAmid, CloseAmid, FitAmid, FitClosing, FreshSid, AmidLoss, ClosingLoss, Harmless, LossOf;
    match m
    case Alone(step) => StepKeeps(k, v, step);
    case WhileSettling(vid, sid, now, ok, credited, recorded, undoing) => SettleAmidExact(k, v, vid, sid, now, ok, credited, recorded, undoing);
    case WhileClosing(id, sid, now, ok, plans) => CloseAmidExact(k, v, id, sid, now, ok, plans);
  }

  // ---- Whole runs ----

  ghost function Ran(k: Crypto, v: Vault, moves: seq<Move>): Outcome
    decreases |moves|
  {
    if moves == [] then Idle(v) else
      var n := |moves| - 1;
      var before := Ran(k, v, moves[..n]);
      var last := Made(k, before.v, moves[n]);
      Outcome(last.v, before.entries + last.entries)
  }

  ghost predicate AllowedRun(k: Crypto, v: Vault, moves: seq<Move>)
    decreases |moves|
  {
    moves == [] ||
    var n := |moves| - 1;
    AllowedRun(k, v, moves[..n]) && Allowed(Ran(k, v, moves[..n]).v, moves[n])
  }

  ghost predicate UnharmedRun(k: Crypto, v: Vault, moves: seq<Move>)
    decreases |moves|
  {
    moves == [] ||
    var n := |moves| - 1;
    UnharmedRun(k, v, moves[..n]) && Unharmed(Ran(k, v, moves[..n]).v, moves[n])
  }

  /** The invariant holds at the start and after every move. */
  ghost predicate Throughout(k: Crypto, v: Vault, moves: seq<Move>)
    decreases |moves|
  {
    Inv(k, Ran(k, v, moves).v) && (moves != [] ==> Throughout(k, v, moves[..|moves| - 1]))
  }

  ghost function LossAlong(k: Crypto, v: Vault, moves: seq<Move>): int
    decreases |moves|
  {
    if moves == [] then 0 else
      var n := |moves| - 1;
      LossAlong(k, v, moves[..n]) + LossBy(Ran(k, v, moves[..n]).v, moves[n])
  }

  /**
   * With batches planned there too, the invariant holds throughout a run if and only if no pass sees a
   * settlement's credit without its record while there is money to lose; and deposits then exceed what they are accounted
   * for by exactly the losses of the passes.
   */
  lemma {:induction false} BusyExact(k: Crypto, v: Vault, moves: seq<Move>)
    requires Inv(k, v) && AllowedRun(k, v, moves)
    ensures Throughout(k, v, moves) <==> UnharmedRun(k, v, moves)
    ensures UnharmedRun(k, v, moves) ==> Lost(Ran(k, v, moves).v) == Lost(v) + LossAlong(k, v, moves)
    decreases |moves|
  {
    hide Inv, Lost, Made, Allowed, Unharmed, LossBy;
    if moves != [] {
      var n := |moves| - 1;
      BusyExact(k, v, moves[..n]);
      if UnharmedRun(k, v, moves[..n]) {
        ThroughoutEnds(k, v, moves[..n]);
        MoveExact(k, Ran(k, v, moves[..n]).v, moves[n]);
      }
    }
  }

  lemma ThroughoutEnds(k: Crypto, v: Vault, moves: seq<Move>)
    requires Throughout(k, v, moves)
    ensures Inv(k, Ran(k, v, moves).v)
  {
    hide Inv, Ran;
  }

  function Alones(steps: seq<Step>): seq<Move> { seq(|steps|, i requires 0 <= i < |steps| => Alone(steps[i])) }

  /** Steps by themselves run as they do without passes. */
  lemma {:induction false} AloneRuns(k: Crypto, v: Vault, steps: seq<Step>)
    ensures Ran(k, v, Alones(steps)) == Run(k, v, steps) && UnharmedRun(k, v, Alones(steps))
    ensures AllowedRun(k, v, Alones(steps)) <==> AdmissibleRun(k, v, steps)
    decreases |steps|
  {
    hide Live, Admissible;
    if steps != [] {
      var n := |steps| - 1;
      AloneRuns(k, v, steps[..n]);
      assert Alones(steps)[..n] == Alones(steps[..n]);
    }
  }

  /** One more move at the end of a run. */
  lemma RanSnoc(k: Crypto, v: Vault, moves: seq<Move>, m: Move)
    ensures var before := Ran(k, v, moves);
      var last := Made(k, before.v, m);
      && Ran(k, v, moves + [m]) == Outcome(last.v, before.entries + last.entries)
      && (AllowedRun(k, v, moves + [m]) <==> AllowedRun(k, v, moves) && Allowed(before.v, m))
  {
    hide Made, Allowed;
    assert (moves + [m])[..|moves|] == moves;
  }

  // ---- Conservation ----

  /** Passes change nothing but credits and log nothing. */
  lemma MovesLikeStep(k: Crypto, v: Vault, m: Move)
    requires Inv(k, v) && Allowed(v, m)
    ensures var made, plain := Made(k, v, m), Live(k, v, Plain(m));
      made.entries == plain.entries && made.v == plain.v.(credits := made.v.credits)
  {
    hide Inv, SettleAmid, SettleStep, CloseAmid, CloseStep, FreshSid, CreditsAmid, CreditsUndoing, Rolled, PutBack, Plans, CloseChannel, FitAmid, FitClosing;
    match m
    case Alone(step) =>
    case WhileSettling(vid, sid, now, ok, credited, recorded, undoing) =>
      if Settles(v, vid, now) {
        AmidShape(k, v, vid, sid, now, ok, credited, recorded, undoing);
        if !ok { SettleFailed(k, v, vid, sid, now); }
      } else {
        NoSettlement(v, vid, sid, now, ok, credited, recorded, undoing);
        SettleIdle(v, vid, sid, now, ok);
      }
    case WhileClosing(id, sid, now, ok, plans) =>
      if Closes(v, id) {
        ClosingShape(k, v, id, sid, now, ok, plans);
        if !ok { UndoneCloseIdles(k, v, id, sid, now); }
      } else {
        NoClosing(k, v, id, sid, now, ok, plans);
        IdleClosing(k, v, id, sid, now, ok);
      }
  }

  lemma UndoneCloseIdles(k: Crypto, v: Vault, id: Id, sid: Id, now: Time)
    requires Inv(k, v) && Closes(v, id)
    ensures CloseStep(v, id, sid, now, false).v == v
  {
    hide Inv, CloseChannel;
    CloseNeverStuck(k, v, id, sid, now);
  }

  lemma IdleClosing(k: Crypto, v: Vault, id: Id, sid: Id, now: Time, ok: bool)
    requires Inv(k, v) && !Closes(v, id)
    ensures CloseStep(v, id, sid, now, ok) == Idle(v)
  {
    hide Inv, CloseChannel;
    CloseNeverStuck(k, v, id, sid, now);
  }

  lemma {:induction false} BusyBooks(k: Crypto, v: Vault, moves: seq<Move>)
    requires Inv(k, v) && AllowedRun(k, v, moves) && UnharmedRun(k, v, moves)
    ensures var done := Ran(k, v, moves);
      && Sum(done.v.clients, DepositedOf()) == Sum(v.clients, DepositedOf()) + DepositIn(done.entries)
      && Sum(done.v.clients, WithdrawnOf()) == Sum(v.clients, WithdrawnOf()) + WithdrawnIn(done.entries)
    decreases |moves|
  {
    hide Inv, Live, Made, Books, Admissible, DepositIn, WithdrawnIn, Unharmed;
    if moves == [] {
      NoTotals([]);
    } else {
      var n := |moves| - 1;
      var before := Ran(k, v, moves[..n]);
      BusyBooks(k, v, moves[..n]);
      BusyExact(k, v, moves[..n]);
      ThroughoutEnds(k, v, moves[..n]);
      MovesLikeStep(k, before.v, moves[n]);
      var last := Live(k, before.v, Plain(moves[n]));
      var c := StepBooks(k, before.v, Plain(moves[n]));
      BooksTotal(before.v.clients, last.v.clients, c, DepositIn(last.entries), WithdrawnIn(last.entries));
      TotalsAppend(before.entries, last.entries);
    }
  }

  /**
   * Conservation with batches planned there too: what the log says came in is in clients' free and locked balances, went
   * out by a logged withdrawal, is owed to providers, was paid out on-chain, or was lost to planning.
   */
  lemma BusyConservation(k: Crypto, moves: seq<Move>)
    requires AllowedRun(k, EmptyVault, moves) && UnharmedRun(k, EmptyVault, moves)
    ensures var done := Ran(k, EmptyVault, moves);
      DepositIn(done.entries) == Sum(done.v.clients, KeptOf()) + WithdrawnIn(done.entries)
                                 + Sum(done.v.credits, OwedOf()) + Sum(done.v.reservations, PaidOutOf())
                                 + LossAlong(k, EmptyVault, moves)
  {
    hide IndexOk, SettledOk, ChannelsOk, LockedOk, CacheOk, Ran, AllowedRun, UnharmedRun, DepositIn, WithdrawnIn, LossAlong, Throughout;
    var done := Ran(k, EmptyVault, moves);
    EmptyKeeps(k);
    BusyBooks(k, EmptyVault, moves);
    BusyExact(k, EmptyVault, moves);
    SumAdd(done.v.clients, KeptOf(), WithdrawnOf(), HeldOf());
    assert Sum(EmptyVault.clients, DepositedOf()) == 0 && Sum(EmptyVault.clients, WithdrawnOf()) == 0;
  }
}
