/*
 * The crash-game engine as a state machine over values: the balance ledger,
 * the one-bet-per-user bet book and the round loop, each request handler and
 * each step of the round loop a function from the old state to the new one.
 *
 * Units. Every amount is a multiple of 0.01 and is kept as an integer:
 *   - request amounts (top-ups and stakes) and the bet book are in cents;
 *   - the ledger is in ten-thousandths of a currency unit, so that a payout,
 *     stake (cents) times multiplier (hundredths), is credited exactly;
 *   - the multiplier and the crash target are in hundredths (1.00 is 100).
 */
module CrashGame {

  type UserId = int

  /** Ledger units per cent of a request amount. */
  const LedgerPerCent := 100
  /** The multiplier every round starts at: 1.00. */
  const StartMultiplier := 100
  /** The range the crash target is drawn from: [1.50, 3.00]. */
  const MinCrash := 150
  const MaxCrash := 300
  /** The crash target before the first round starts: 2.00. */
  const InitialCrash := 200

  /** Where the round loop is: pausing between rounds, climbing, or between
      clearing `round_active` and clearing the bets. */
  datatype Phase = Idle | Running | Crashing

  /** The events the round loop sends to every connected client. */
  datatype Broadcast = Start(crashAt: int) | Update(multiplier: int) | Crash(at: int)

  datatype State = State(
    balances: map<UserId, int>,  // ledger units
    bets: map<UserId, int>,      // stake in cents
    multiplier: int,             // hundredths
    crash: int,                  // hundredths
    roundActive: bool,
    phase: Phase,                // position of the round loop
    log: seq<Broadcast>)         // everything broadcast so far

  datatype Refusal =
    | RoundNotStarted      // bet while no round is active
    | InsufficientBalance  // stake larger than the balance
    | MissingAccount       // the handler fails on a user with no ledger entry
    | BetNotFound          // cashout with no live bet

  datatype Reply = Done | BalanceIs(amount: int) | Paid(win: int) | Refused(why: Refusal)

  datatype Outcome = Outcome(next: State, reply: Reply)

  /** The player requests, as the HTTP handlers receive them. */
  datatype Request =
    | BalanceQuery(user: UserId)
    | BalanceTopUp(user: UserId, amount: int)
    | Bet(user: UserId, amount: int)
    | CashoutRequest(user: UserId)

  /** What can happen next: a player request, or the round loop's next step
      (with the crash target it would draw if it starts a round). */
  datatype Occurrence = Player(req: Request) | Loop(target: int)

  // ---------------------------------------------------------------- state

  /** The state when the server starts. */
  function Initial(): (s: State)
    ensures WellFormed(s) && Inv(s) && s.phase == Idle && !s.roundActive
    ensures forall u :: Balance(s, u) == 0
  {
    State(map[], map[], StartMultiplier, InitialCrash, false, Idle, [])
  }

  /** The shape every reachable state keeps, whatever the sign of the amounts
      in the requests. */
  ghost predicate WellFormed(s: State) {
    && (forall u :: u in s.bets ==> u in s.balances)
    && StartMultiplier <= s.multiplier <= s.crash
    && MinCrash <= s.crash <= MaxCrash
    && (s.roundActive <==> s.phase == Running)
    && (s.phase == Idle ==> s.bets == map[])
    && (s.phase == Crashing ==> s.multiplier == s.crash)
  }

  /** The invariant every reachable state keeps when no request carries a
      negative amount: the shape, and no negative balance or stake. */
  ghost predicate Inv(s: State) {
    && WellFormed(s)
    && (forall u :: u in s.balances ==> s.balances[u] >= 0)
    && (forall u :: u in s.bets ==> s.bets[u] >= 0)
  }

  /** The number of round-loop steps in a trace. */
  function LoopSteps(trace: seq<Occurrence>): nat
    decreases |trace|
  {
    if trace == [] then 0 else (if trace[0].Loop? then 1 else 0) + LoopSteps(trace[1..])
  }

  /** The round loop's part of the state: what player requests never touch. */
  predicate SameRound(s: State, t: State) {
    && s.multiplier == t.multiplier
    && s.crash == t.crash
    && s.roundActive == t.roundActive
    && s.phase == t.phase
    && s.log == t.log
  }

  predicate NonNegative(r: Request) {
    match r
    case BalanceTopUp(_, amount) => amount >= 0
    case Bet(_, amount) => amount >= 0
    case _ => true
  }

  predicate Drawable(o: Occurrence) {
    o.Loop? ==> MinCrash <= o.target <= MaxCrash
  }

  // ------------------------------------------------------- ledger actions

  /** A user's balance; users never seen have balance 0. */
  function Balance(s: State, u: UserId): int {
    if u in s.balances then s.balances[u] else 0
  }

  /** Credit `amount` cents to `u`. Negative amounts are not rejected. */
  function TopUp(s: State, u: UserId, amount: int): (t: State)
    ensures u in t.balances && Balance(t, u) == Balance(s, u) + amount * LedgerPerCent
    ensures forall v :: v != u ==> Balance(t, v) == Balance(s, v)
    ensures t.balances.Keys == s.balances.Keys + {u}
    ensures t.bets == s.bets && SameRound(s, t)
  {
    s.(balances := s.balances[u := Balance(s, u) + amount * LedgerPerCent])
  }

  /** Place a bet of `amount` cents: only while a round is active and only when
      the balance covers the stake; a second bet replaces the first. */
  function PlaceBet(s: State, u: UserId, amount: int): (o: Outcome)
    ensures !s.roundActive ==> o == Outcome(s, Refused(RoundNotStarted))
    ensures s.roundActive && Balance(s, u) < amount * LedgerPerCent ==>
              o == Outcome(s, Refused(InsufficientBalance))
    ensures o.reply == Done <==>
              s.roundActive && u in s.balances && amount * LedgerPerCent <= s.balances[u]
    ensures o.reply != Done ==> o.next == s
    ensures o.reply == Done ==>
              && Balance(o.next, u) == Balance(s, u) - amount * LedgerPerCent
              && o.next.balances.Keys == s.balances.Keys
              && (forall v :: v != u ==> Balance(o.next, v) == Balance(s, v))
              && o.next.bets == s.bets[u := amount]
    ensures SameRound(s, o.next)
  {
    if !s.roundActive then Outcome(s, Refused(RoundNotStarted))
    else if Balance(s, u) < amount * LedgerPerCent then Outcome(s, Refused(InsufficientBalance))
    // the debit looks the user up without a default: no entry, no bet
    else if u !in s.balances then Outcome(s, Refused(MissingAccount))
    else
      var s' := s.(balances := s.balances[u := s.balances[u] - amount * LedgerPerCent],
                   bets := s.bets[u := amount]);
      Outcome(s', Done)
  }

  /** Cash out `u`'s bet at the current multiplier. */
  function Cashout(s: State, u: UserId): (o: Outcome)
    ensures u !in s.bets ==> o == Outcome(s, Refused(BetNotFound))
    ensures o.reply.Paid? <==> u in s.bets && u in s.balances
    ensures !o.reply.Paid? ==> o.next == s
    ensures o.reply.Paid? ==>
              && o.reply.win == s.bets[u] * s.multiplier
              && Balance(o.next, u) == Balance(s, u) + s.bets[u] * s.multiplier
              && o.next.balances.Keys == s.balances.Keys
              && (forall v :: v != u ==> Balance(o.next, v) == Balance(s, v))
              && o.next.bets == s.bets - {u}
    ensures SameRound(s, o.next)
  {
    if u !in s.bets then Outcome(s, Refused(BetNotFound))
    // the credit looks the user up without a default
    else if u !in s.balances then Outcome(s, Refused(MissingAccount))
    else
      var win := s.bets[u] * s.multiplier;
      Outcome(s.(balances := s.balances[u := s.balances[u] + win], bets := s.bets - {u}), Paid(win))
  }

  /** Serve one player request. */
  function Handle(s: State, r: Request): (o: Outcome)
    ensures SameRound(s, o.next)
    ensures s.balances.Keys <= o.next.balances.Keys
    ensures r.BalanceQuery? ==> o == Outcome(s, BalanceIs(Balance(s, r.user)))
  {
    match r
    case BalanceQuery(u) => Outcome(s, BalanceIs(Balance(s, u)))
    case BalanceTopUp(u, amount) => Outcome(TopUp(s, u, amount), Done)
    case Bet(u, amount) => PlaceBet(s, u, amount)
    case CashoutRequest(u) => Cashout(s, u)
  }

  /** Serve a sequence of player requests with the round loop asleep. */
  function Serve(s: State, rs: seq<Request>): (t: State)
    ensures s.balances.Keys <= t.balances.Keys
    decreases |rs|
  {
    if rs == [] then s else Serve(Handle(s, rs[0]).next, rs[1..])
  }

  // ------------------------------------------------------- the round loop

  /** Start a round: active, multiplier 1.00, crash target drawn in range. */
  function StartRound(s: State, target: int): (t: State)
    requires MinCrash <= target <= MaxCrash
    ensures t.roundActive && t.phase == Running
    ensures t.multiplier == StartMultiplier && MinCrash <= t.crash <= MaxCrash && t.crash == target
    ensures t.balances == s.balances && t.bets == s.bets
    ensures t.log == s.log + [Start(target)]
  {
    s.(roundActive := true, phase := Running, multiplier := StartMultiplier, crash := target,
       log := s.log + [Start(target)])
  }

  /** One tick of the climb, taken while the multiplier is below the target. */
  function Tick(s: State): (t: State)
    requires s.phase == Running && s.multiplier < s.crash
    ensures s.multiplier < t.multiplier == s.multiplier + 1 <= t.crash == s.crash
    ensures t.phase == Running && t.roundActive == s.roundActive
    ensures t.balances == s.balances && t.bets == s.bets
    ensures t.log == s.log + [Update(t.multiplier)]
  {
    s.(multiplier := s.multiplier + 1, log := s.log + [Update(s.multiplier + 1)])
  }

  /** The climb has reached the target: the round is no longer active. The
      bets are still there until ForfeitBets. */
  function CloseRound(s: State): (t: State)
    requires s.phase == Running && s.multiplier >= s.crash
    ensures !t.roundActive && t.phase == Crashing
    ensures t.multiplier == s.multiplier && t.crash == s.crash
    ensures t.balances == s.balances && t.bets == s.bets
    ensures t.log == s.log + [Crash(s.crash)]
  {
    s.(roundActive := false, phase := Crashing, log := s.log + [Crash(s.crash)])
  }

  /** Drop every outstanding bet: the stakes were debited when placed. */
  function ForfeitBets(s: State): (t: State)
    requires s.phase == Crashing
    ensures t.bets == map[] && t.phase == Idle
    ensures t.balances == s.balances && t.roundActive == s.roundActive
    ensures t.multiplier == s.multiplier && t.crash == s.crash && t.log == s.log
  {
    s.(bets := map[], phase := Idle)
  }

  /** The round loop's next step; `target` is used only when a round starts. */
  function Advance(s: State, target: int): (t: State)
    requires MinCrash <= target <= MaxCrash
    ensures t.balances == s.balances
    ensures s.phase == Idle ==>
              t.phase == Running && t.multiplier == StartMultiplier && t.crash == target
    ensures s.phase == Running && s.multiplier < s.crash ==>
              t.phase == Running && t.multiplier == s.multiplier + 1 && t.crash == s.crash
    ensures s.phase == Running && s.multiplier >= s.crash ==>
              t.phase == Crashing && !t.roundActive && t.multiplier == s.multiplier
    ensures s.phase == Crashing ==> t.phase == Idle && t.bets == map[]
    ensures s.phase != Crashing ==> t.bets == s.bets
    ensures s.log <= t.log && |t.log| <= |s.log| + 1
  {
    match s.phase
    case Idle => StartRound(s, target)
    case Running => if s.multiplier < s.crash then Tick(s) else CloseRound(s)
    case Crashing => ForfeitBets(s)
  }

  /** `n` steps of the round loop with no request in between. */
  function RoundLoop(s: State, target: int, n: nat): (t: State)
    requires MinCrash <= target <= MaxCrash
    ensures t.balances == s.balances
    ensures s.log <= t.log && |t.log| <= |s.log| + n
    decreases n
  {
    if n == 0 then s else Advance(RoundLoop(s, target, n - 1), target)
  }

  function Step(s: State, o: Occurrence): State
    requires Drawable(o)
  {
    match o
    case Player(r) => Handle(s, r).next
    case Loop(target) => Advance(s, target)
  }

  /** Any interleaving of requests and round-loop steps. */
  function Run(s: State, trace: seq<Occurrence>): (t: State)
    requires forall i :: 0 <= i < |trace| ==> Drawable(trace[i])
    ensures s.log <= t.log && s.balances.Keys <= t.balances.Keys
    ensures LoopSteps(trace) == 0 ==> SameRound(s, t)
    decreases |trace|
  {
    if trace == [] then s else Run(Step(s, trace[0]), trace[1..])
  }

  /** The `update` events of `n` ticks whose first multiplier is `from`. */
  function Updates(from: int, n: nat): seq<Broadcast>
    decreases n
  {
    if n == 0 then [] else Updates(from, n - 1) + [Update(from + n - 1)]
  }

  /** Everything one round broadcasts. */
  function RoundLog(target: int): seq<Broadcast>
    requires target >= StartMultiplier
  {
    [Start(target)] + Updates(StartMultiplier + 1, target - StartMultiplier) + [Crash(target)]
  }

  /** `n` ticks of the climb. */
  function Ticks(s: State, n: nat): (t: State)
    requires s.phase == Running && s.multiplier + n <= s.crash
    ensures t.phase == Running && t.roundActive == s.roundActive
    ensures t.multiplier == s.multiplier + n && t.crash == s.crash
    ensures t.balances == s.balances && t.bets == s.bets
    ensures t.log == s.log + Updates(s.multiplier + 1, n)
    decreases n
  {
    if n == 0 then s else Tick(Ticks(s, n - 1))
  }

  // ------------------------------------------------------------- lemmas

  /** A balance query returns the stored balance, 0 for a user never topped
      up, and changes nothing. */
  lemma BalanceQueryIsPure(s: State, u: UserId)
    ensures Handle(s, BalanceQuery(u)).next == s
    ensures u in s.balances ==> Handle(s, BalanceQuery(u)).reply == BalanceIs(s.balances[u])
    ensures u !in s.balances ==> Handle(s, BalanceQuery(u)).reply == BalanceIs(0)
  {
  }

  /** The `update` events count up by exactly one hundredth from `from`. */
  lemma {:induction false} UpdatesAt(from: int, n: nat, i: nat)
    requires i < n
    ensures |Updates(from, n)| == n
    ensures Updates(from, n)[i] == Update(from + i)
  {
    if i < n - 1 {
      UpdatesAt(from, n - 1, i);
    } else {
      UpdatesLength(from, n - 1);
    }
  }

  lemma {:induction false} UpdatesLength(from: int, n: nat)
    ensures |Updates(from, n)| == n
  {
    if n > 0 {
      UpdatesLength(from, n - 1);
    }
  }

  /** Every `update` of a round carries a multiplier one hundredth above the
      previous one. */
  lemma StrictlyIncreasingUpdates(from: int, n: nat, i: nat)
    requires 0 < i < n
    ensures |Updates(from, n)| == n
    ensures Updates(from, n)[i - 1].Update? && Updates(from, n)[i].Update?
    ensures Updates(from, n)[i].multiplier == Updates(from, n)[i - 1].multiplier + 1
  {
    UpdatesAt(from, n, i);
    UpdatesAt(from, n, i - 1);
  }

  /** Between rounds, the round loop's k-th step after the start is the k-th tick. */
  lemma {:induction false} LoopClimbs(s: State, target: int, k: nat)
    requires s.phase == Idle && MinCrash <= target <= MaxCrash
    requires k <= target - StartMultiplier
    ensures RoundLoop(s, target, k + 1) == Ticks(StartRound(s, target), k)
  {
    if k > 0 {
      LoopClimbs(s, target, k - 1);
    }
  }

  /** A round without requests stays running for `target - 1.00` ticks, the
      multiplier one hundredth higher at each: it never closes earlier. */
  lemma RoundClimbsToTarget(s: State, target: int)
    requires s.phase == Idle && MinCrash <= target <= MaxCrash
    ensures forall k :: 1 <= k <= target - StartMultiplier + 1 ==>
              RoundLoop(s, target, k).phase == Running &&
              RoundLoop(s, target, k).multiplier == StartMultiplier + k - 1
  {
    forall k | 1 <= k <= target - StartMultiplier + 1
      ensures RoundLoop(s, target, k).phase == Running
      ensures RoundLoop(s, target, k).multiplier == StartMultiplier + k - 1
    {
      LoopClimbs(s, target, k - 1);
    }
  }

  /** The round loop's steps after a start: the ticks up to the target, then
      the close, then the forfeit. */
  lemma RoundSteps(s: State, target: int)
    requires s.phase == Idle && MinCrash <= target <= MaxCrash
    ensures var top := Ticks(StartRound(s, target), target - StartMultiplier);
            && RoundLoop(s, target, target - StartMultiplier + 1) == top
            && RoundLoop(s, target, target - StartMultiplier + 2) == CloseRound(top)
            && RoundLoop(s, target, target - StartMultiplier + 3) == ForfeitBets(CloseRound(top))
  {
    var n := target - StartMultiplier;
    LoopClimbs(s, target, n);
    var top := Ticks(StartRound(s, target), n);
    assert top.phase == Running && top.multiplier == top.crash;
    assert RoundLoop(s, target, n + 2) == Advance(top, target) == CloseRound(top);
    assert RoundLoop(s, target, n + 3) == Advance(CloseRound(top), target);
  }

  /** Start, climb to the target, close and forfeit, step by step. */
  lemma RoundEnd(s: State, target: int)
    requires MinCrash <= target <= MaxCrash
    ensures ForfeitBets(CloseRound(Ticks(StartRound(s, target), target - StartMultiplier))) ==
              s.(bets := map[], multiplier := target, crash := target, roundActive := false,
                 phase := Idle, log := s.log + RoundLog(target))
  {
    var top := Ticks(StartRound(s, target), target - StartMultiplier);
    var ups := Updates(StartMultiplier + 1, target - StartMultiplier);
    assert ForfeitBets(CloseRound(top)).log == s.log + [Start(target)] + ups + [Crash(target)];
    assert s.log + [Start(target)] + ups + [Crash(target)] == s.log + RoundLog(target);
  }

  /** A whole round without requests: it starts, ticks exactly `target - 1.00`
      times, closes when the multiplier reaches the target and forfeits the
      bets; balances are untouched and the broadcasts are start, the updates
      and one crash. */
  lemma FullRound(s: State, target: int)
    requires s.phase == Idle && MinCrash <= target <= MaxCrash
    ensures RoundLoop(s, target, target - StartMultiplier + 3) ==
              s.(bets := map[], multiplier := target, crash := target, roundActive := false,
                 phase := Idle, log := s.log + RoundLog(target))
  {
    RoundSteps(s, target);
    RoundEnd(s, target);
  }

  /** Player requests never change the round loop's state. */
  lemma {:induction false} ServeKeepsRound(s: State, rs: seq<Request>)
    ensures SameRound(s, Serve(s, rs))
    decreases |rs|
  {
    if rs != [] {
      ServeKeepsRound(Handle(s, rs[0]).next, rs[1..]);
    }
  }

  /** Once a round is no longer active, no bet succeeds, whatever requests come
      in, until the round loop starts the next round. */
  lemma ClosedRoundRefusesBets(s: State, rs: seq<Request>, u: UserId, amount: int)
    requires !s.roundActive
    ensures PlaceBet(Serve(s, rs), u, amount) == Outcome(Serve(s, rs), Refused(RoundNotStarted))
  {
    ServeKeepsRound(s, rs);
  }

  /** A successful bet by a user with no live bet moves the stake from the
      balance to the bet book: balance plus stake is unchanged. */
  lemma FreshBetConservesFunds(s: State, u: UserId, amount: int)
    requires u !in s.bets && PlaceBet(s, u, amount).reply == Done
    ensures var t := PlaceBet(s, u, amount).next;
            Balance(t, u) + t.bets[u] * LedgerPerCent == Balance(s, u)
  {
  }

  /** A second bet in the same round replaces the first: both stakes are
      debited and only the second can be cashed out. */
  lemma RebetLosesEarlierStake(s: State, u: UserId, first: int, second: int)
    requires PlaceBet(s, u, first).reply == Done
    requires PlaceBet(PlaceBet(s, u, first).next, u, second).reply == Done
    ensures var t := PlaceBet(PlaceBet(s, u, first).next, u, second).next;
            t.bets[u] == second &&
            Balance(t, u) == Balance(s, u) - (first + second) * LedgerPerCent
  {
  }

  /** With a non-negative balance and stake, a successful bet leaves a
      non-negative balance. */
  lemma BetKeepsBalanceNonNegative(s: State, u: UserId, amount: int)
    requires Balance(s, u) >= 0 && amount >= 0
    ensures Balance(PlaceBet(s, u, amount).next, u) >= 0
  {
  }

  /** A second cashout in a row never pays and changes nothing; in a
      reachable state it is refused for want of a bet. */
  lemma SecondCashoutFails(s: State, u: UserId)
    ensures var t := Cashout(s, u).next;
            !Cashout(t, u).reply.Paid? && Cashout(t, u).next == t
    ensures WellFormed(s) ==>
              var t := Cashout(s, u).next;
              Cashout(t, u) == Outcome(t, Refused(BetNotFound))
  {
  }

  /** In a reachable state a live bet always has a ledger entry, so a cashout
      succeeds exactly when the user has a live bet; with non-negative
      amounts the payout is non-negative. */
  lemma CashoutPaysLiveBet(s: State, u: UserId)
    requires WellFormed(s)
    ensures Cashout(s, u).reply.Paid? <==> u in s.bets
    ensures Inv(s) && u in s.bets ==> Cashout(s, u).reply.win >= 0
  {
  }

  /** The crash keeps every balance, empties the bet book and closes betting. */
  lemma CrashForfeitsStakes(s: State, u: UserId, amount: int)
    requires s.phase == Running && s.multiplier >= s.crash
    ensures var t := ForfeitBets(CloseRound(s));
            && t.balances == s.balances
            && t.bets == map[]
            && !t.roundActive
            && PlaceBet(t, u, amount) == Outcome(t, Refused(RoundNotStarted))
  {
  }

  /** A cashout that lands between the two halves of the crash resolves to
      exactly one outcome: paid at the crash multiplier if it comes before the
      bets are cleared, refused with the balance untouched if after. */
  lemma CashoutOrForfeit(s: State, u: UserId)
    requires WellFormed(s) && s.phase == Crashing && u in s.bets
    ensures var paid := Cashout(s, u);
            && paid.reply == Paid(s.bets[u] * s.crash)
            && ForfeitBets(paid.next).balances == paid.next.balances
            && Balance(ForfeitBets(paid.next), u) == Balance(s, u) + s.bets[u] * s.crash
    ensures var lost := ForfeitBets(s);
            && Cashout(lost, u) == Outcome(lost, Refused(BetNotFound))
            && Balance(lost, u) == Balance(s, u)
  {
  }

  lemma HandleKeepsWellFormed(s: State, r: Request)
    requires WellFormed(s)
    ensures WellFormed(Handle(s, r).next)
  {
  }

  lemma AdvanceKeepsWellFormed(s: State, target: int)
    requires WellFormed(s) && MinCrash <= target <= MaxCrash
    ensures WellFormed(Advance(s, target))
  {
  }

  /** The shape holds after any interleaving of requests, with amounts of
      either sign, and round-loop steps. */
  lemma {:induction false} RunKeepsWellFormed(s: State, trace: seq<Occurrence>)
    requires WellFormed(s)
    requires forall i :: 0 <= i < |trace| ==> Drawable(trace[i])
    ensures WellFormed(Run(s, trace))
    decreases |trace|
  {
    if trace != [] {
      match trace[0] {
        case Player(r) => HandleKeepsWellFormed(s, r);
        case Loop(target) => AdvanceKeepsWellFormed(s, target);
      }
      RunKeepsWellFormed(Step(s, trace[0]), trace[1..]);
    }
  }

  /** From server start, whatever the amounts, no bet survives into the pause
      between rounds and every live bet has a ledger entry. */
  lemma NoBetBetweenRounds(trace: seq<Occurrence>, u: UserId)
    requires forall i :: 0 <= i < |trace| ==> Drawable(trace[i])
    ensures Run(Initial(), trace).phase == Idle ==> Run(Initial(), trace).bets == map[]
    ensures u in Run(Initial(), trace).bets ==> u in Run(Initial(), trace).balances
  {
    RunKeepsWellFormed(Initial(), trace);
  }

  /** Once the round is no longer active, no bet succeeds whatever requests
      and round-loop steps come in, until the loop starts the next round: at
      most the forfeit step if the crash is under way, none from the pause. */
  lemma {:induction false} NoBetUntilNextStart(s: State, trace: seq<Occurrence>, u: UserId, amount: int)
    requires WellFormed(s) && !s.roundActive
    requires forall i :: 0 <= i < |trace| ==> Drawable(trace[i])
    requires LoopSteps(trace) <= (if s.phase == Crashing then 1 else 0)
    ensures !Run(s, trace).roundActive
    ensures PlaceBet(Run(s, trace), u, amount) == Outcome(Run(s, trace), Refused(RoundNotStarted))
    decreases |trace|
  {
    if trace != [] {
      match trace[0] {
        case Player(r) => HandleKeepsWellFormed(s, r);
        case Loop(target) => AdvanceKeepsWellFormed(s, target);
      }
      NoBetUntilNextStart(Step(s, trace[0]), trace[1..], u, amount);
    }
  }

  lemma HandlePreservesInv(s: State, r: Request)
    requires Inv(s) && NonNegative(r)
    ensures Inv(Handle(s, r).next)
  {
  }

  lemma AdvancePreservesInv(s: State, target: int)
    requires Inv(s) && MinCrash <= target <= MaxCrash
    ensures Inv(Advance(s, target))
  {
  }

  /** The invariant holds after any interleaving of requests with non-negative
      amounts and round-loop steps. */
  lemma {:induction false} RunPreservesInv(s: State, trace: seq<Occurrence>)
    requires Inv(s)
    requires forall i :: 0 <= i < |trace| ==> Drawable(trace[i])
    requires forall i :: 0 <= i < |trace| ==> trace[i].Player? ==> NonNegative(trace[i].req)
    ensures Inv(Run(s, trace))
    decreases |trace|
  {
    if trace != [] {
      match trace[0] {
        case Player(r) => HandlePreservesInv(s, r);
        case Loop(target) => AdvancePreservesInv(s, target);
      }
      RunPreservesInv(Step(s, trace[0]), trace[1..]);
    }
  }

  /** From server start, no balance ever goes negative and every live bet
      belongs to an active or just-crashed round. */
  lemma BalanceNeverNegative(trace: seq<Occurrence>, u: UserId)
    requires forall i :: 0 <= i < |trace| ==> Drawable(trace[i])
    requires forall i :: 0 <= i < |trace| ==> trace[i].Player? ==> NonNegative(trace[i].req)
    ensures Balance(Run(Initial(), trace), u) >= 0
    ensures Run(Initial(), trace).phase == Idle ==> Run(Initial(), trace).bets == map[]
  {
    RunPreservesInv(Initial(), trace);
  }

  /** Negative amounts are accepted: after a start, a top-up of 0 and a stake
      of -0.10, the state breaks the sign half of the invariant and a cashout
      pays a negative amount. */
  lemma NegativeStakePaysNegative()
    ensures var s := Run(Initial(), [Loop(150), Player(BalanceTopUp(1, 0)), Player(Bet(1, -10))]);
            && WellFormed(s) && !Inv(s)
            && Cashout(s, 1).reply == Paid(-1000)
  {
    var s := Run(Initial(), [Loop(150), Player(BalanceTopUp(1, 0)), Player(Bet(1, -10))]);
    RunKeepsWellFormed(Initial(), [Loop(150), Player(BalanceTopUp(1, 0)), Player(Bet(1, -10))]);
    assert s.bets[1] == -10;
  }

  /** Top up 100.00, bet 50.00, climb to 1.75 and cash out: 87.50 is paid and
      the balance ends at 137.50. */
  lemma WinScenario(s: State, u: UserId)
    requires s.phase == Running && s.roundActive && s.multiplier == 100 && s.crash == 200
    requires u !in s.balances && u !in s.bets
    ensures var funded := TopUp(s, u, 10000);
            var bet := PlaceBet(funded, u, 5000);
            var climbed := Ticks(bet.next, 75);
            var paid := Cashout(climbed, u);
            && bet.reply == Done && Balance(bet.next, u) == 500000
            && paid.reply == Paid(875000) && Balance(paid.next, u) == 1375000
            && u !in paid.next.bets
  {
  }
}
