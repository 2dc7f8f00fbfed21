/*
 * The server's module-level game state as one object. Each request handler
 * and each step of the round loop is a method that updates the fields in
 * place, proved to act as a CrashGame function: TopupBalance as TopUp,
 * PlaceBet, Cashout, StartRound, Tick, CloseRound and ForfeitBets as their
 * namesakes, Climb as Ticks and RunRound as RoundLoop. GetBalance only reads
 * and answers as Handle does for a balance query.
 */
module GameServer {
  import CrashGame

  class CrashServer {
    var balances: map<CrashGame.UserId, int>  // ledger units
    var bets: map<CrashGame.UserId, int>      // stake in cents
    var currentMultiplier: int                // hundredths
    var crashMultiplier: int                  // hundredths
    var roundActive: bool
    // where the round loop is, and what it has broadcast
    ghost var phase: CrashGame.Phase
    ghost var broadcasts: seq<CrashGame.Broadcast>

    /** The object's state as a CrashGame value. */
    ghost function Snapshot(): CrashGame.State
      reads this
    {
      CrashGame.State(balances, bets, currentMultiplier, crashMultiplier, roundActive, phase, broadcasts)
    }

    /** The shape every reachable state keeps, whatever the amounts. */
    ghost predicate Valid()
      reads this
    {
      CrashGame.WellFormed(Snapshot())
    }

    /** Valid, and no balance or stake is negative. */
    ghost predicate Solvent()
      reads this
    {
      CrashGame.Inv(Snapshot())
    }

    constructor ()
      ensures Snapshot() == CrashGame.Initial() && Valid() && Solvent()
    {
      balances, bets := map[], map[];
      currentMultiplier, crashMultiplier := CrashGame.StartMultiplier, CrashGame.InitialCrash;
      roundActive := false;
      phase, broadcasts := CrashGame.Idle, [];
    }

    /** The balance of `u`, 0 for a user never seen; nothing changes. */
    method GetBalance(u: CrashGame.UserId) returns (balance: int)
      ensures u !in balances ==> balance == 0
      ensures u in balances ==> balance == balances[u]
      ensures CrashGame.Handle(Snapshot(), CrashGame.BalanceQuery(u))
                == CrashGame.Outcome(Snapshot(), CrashGame.BalanceIs(balance))
    {
      balance := if u in balances then balances[u] else 0;
    }

    method TopupBalance(u: CrashGame.UserId, amount: int)
      requires Valid()
      modifies this
      ensures Snapshot() == CrashGame.TopUp(old(Snapshot()), u, amount)
      ensures Valid()
      ensures old(Solvent()) && amount >= 0 ==> Solvent()
    {
      balances := balances[u := (if u in balances then balances[u] else 0) + amount * CrashGame.LedgerPerCent];
      CrashGame.HandleKeepsWellFormed(old(Snapshot()), CrashGame.BalanceTopUp(u, amount));
      assert old(Solvent()) && amount >= 0 ==> Solvent() by {
        if old(Solvent()) && amount >= 0 {
          CrashGame.HandlePreservesInv(old(Snapshot()), CrashGame.BalanceTopUp(u, amount));
        }
      }
    }

    method PlaceBet(u: CrashGame.UserId, amount: int) returns (reply: CrashGame.Reply)
      requires Valid()
      modifies this
      ensures CrashGame.Outcome(Snapshot(), reply) == CrashGame.PlaceBet(old(Snapshot()), u, amount)
      ensures Valid()
      ensures old(Solvent()) && amount >= 0 ==> Solvent()
    {
      if !roundActive {
        return CrashGame.Refused(CrashGame.RoundNotStarted);
      }
      if (if u in balances then balances[u] else 0) < amount * CrashGame.LedgerPerCent {
        return CrashGame.Refused(CrashGame.InsufficientBalance);
      }
      if u !in balances {
        // the debit looks the user up without a default
        return CrashGame.Refused(CrashGame.MissingAccount);
      }
      balances := balances[u := balances[u] - amount * CrashGame.LedgerPerCent];
      bets := bets[u := amount];
      reply := CrashGame.Done;
      CrashGame.HandleKeepsWellFormed(old(Snapshot()), CrashGame.Bet(u, amount));
      assert old(Solvent()) && amount >= 0 ==> Solvent() by {
        if old(Solvent()) && amount >= 0 {
          CrashGame.HandlePreservesInv(old(Snapshot()), CrashGame.Bet(u, amount));
        }
      }
    }

    method Cashout(u: CrashGame.UserId) returns (reply: CrashGame.Reply)
      requires Valid()
      modifies this
      ensures CrashGame.Outcome(Snapshot(), reply) == CrashGame.Cashout(old(Snapshot()), u)
      ensures Valid()
      ensures old(Solvent()) ==> Solvent()
    {
      if u !in bets {
        return CrashGame.Refused(CrashGame.BetNotFound);
      }
      var win := bets[u] * currentMultiplier;
      if u !in balances {
        // the credit looks the user up without a default
        return CrashGame.Refused(CrashGame.MissingAccount);
      }
      balances := balances[u := balances[u] + win];
      bets := bets - {u};
      reply := CrashGame.Paid(win);
      CrashGame.HandleKeepsWellFormed(old(Snapshot()), CrashGame.CashoutRequest(u));
      assert old(Solvent()) ==> Solvent() by {
        if old(Solvent()) {
          CrashGame.HandlePreservesInv(old(Snapshot()), CrashGame.CashoutRequest(u));
        }
      }
    }

    /** The round loop starts a round with the crash target it drew. */
    method StartRound(target: int)
      requires Valid() && phase == CrashGame.Idle && CrashGame.MinCrash <= target <= CrashGame.MaxCrash
      modifies this
      ensures Snapshot() == CrashGame.StartRound(old(Snapshot()), target)
      ensures Valid() && (old(Solvent()) ==> Solvent())
    {
      roundActive := true;
      currentMultiplier := CrashGame.StartMultiplier;
      crashMultiplier := target;
      phase := CrashGame.Running;
      broadcasts := broadcasts + [CrashGame.Start(crashMultiplier)];
    }

    /** One tick of the climb. */
    method Tick()
      requires Valid() && phase == CrashGame.Running && currentMultiplier < crashMultiplier
      modifies this
      ensures Snapshot() == CrashGame.Tick(old(Snapshot()))
      ensures Valid() && (old(Solvent()) ==> Solvent())
    {
      currentMultiplier := currentMultiplier + 1;
      broadcasts := broadcasts + [CrashGame.Update(currentMultiplier)];
    }

    /** The climb has reached the target: betting closes. */
    method CloseRound()
      requires Valid() && phase == CrashGame.Running && currentMultiplier >= crashMultiplier
      modifies this
      ensures Snapshot() == CrashGame.CloseRound(old(Snapshot()))
      ensures Valid() && (old(Solvent()) ==> Solvent())
    {
      roundActive := false;
      phase := CrashGame.Crashing;
      broadcasts := broadcasts + [CrashGame.Crash(crashMultiplier)];
    }

    /** Every outstanding bet is dropped. */
    method ForfeitBets()
      requires Valid() && phase == CrashGame.Crashing
      modifies this
      ensures Snapshot() == CrashGame.ForfeitBets(old(Snapshot()))
      ensures Valid() && (old(Solvent()) ==> Solvent())
    {
      bets := map[];
      phase := CrashGame.Idle;
    }

    /** The climb: tick while the multiplier is below the target. */
    method Climb() returns (ticks: nat)
      requires Valid() && phase == CrashGame.Running
      modifies this
      ensures ticks == old(crashMultiplier - currentMultiplier)
      ensures Snapshot() == CrashGame.Ticks(old(Snapshot()), ticks)
      ensures currentMultiplier == crashMultiplier
      ensures Valid() && (old(Solvent()) ==> Solvent())
    {
      ghost var started := Snapshot();
      ticks := 0;
      while currentMultiplier < crashMultiplier
        invariant phase == CrashGame.Running && crashMultiplier == old(crashMultiplier)
        invariant currentMultiplier == old(currentMultiplier) + ticks <= crashMultiplier
        invariant Snapshot() == CrashGame.Ticks(started, ticks)
        invariant Valid() && (old(Solvent()) ==> Solvent())
        decreases crashMultiplier - currentMultiplier
      {
        Tick();
        ticks := ticks + 1;
      }
    }

    /** One pass of the round loop with no request in between: start, climb
        one hundredth per tick while below the target, close, forfeit. */
    method RunRound(target: int) returns (ticks: nat)
      requires Valid() && phase == CrashGame.Idle && CrashGame.MinCrash <= target <= CrashGame.MaxCrash
      modifies this
      ensures ticks == target - CrashGame.StartMultiplier
      ensures Snapshot() == CrashGame.RoundLoop(old(Snapshot()), target, target - CrashGame.StartMultiplier + 3)
      ensures balances == old(balances) && bets == map[]
      ensures currentMultiplier == crashMultiplier == target && !roundActive
      ensures broadcasts == old(broadcasts) + CrashGame.RoundLog(target)
      ensures Valid() && (old(Solvent()) ==> Solvent())
    {
      ghost var before := Snapshot();
      StartRound(target);
      ticks := Climb();
      ghost var top := Snapshot();
      CloseRound();
      ForfeitBets();
      ghost var last := Snapshot();
      assert last == CrashGame.ForfeitBets(CrashGame.CloseRound(top));
      assert top == CrashGame.Ticks(CrashGame.StartRound(before, target), target - CrashGame.StartMultiplier);
      CrashGame.RoundSteps(before, target);
      CrashGame.RoundEnd(before, target);
    }
  }
}
