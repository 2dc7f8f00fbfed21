# Crash-game engine

A model of the engine of a multiplayer "crash" betting game. A shared
multiplier climbs from 1.00 by one hundredth per tick until it reaches a crash
target drawn at the start of the round. Players top up a balance, place bets
while the round is active (each one is debited, and only the last is kept as
the player's one live bet), and cash out at the current multiplier. Every
bet still open when the round crashes is forfeited.

The server keeps its state in module-level globals: `balances`, `bets`,
`current_multiplier`, `crash_multiplier` and `round_active`. The HTTP handlers
and a background round loop update them in place. The model has two modules.

- `CrashGame` (crash_game.dfy) is the state machine over values. Each request
  handler and each step of the round loop is a function from the old `State`
  to the new one. `Run` applies any interleaving of requests and round-loop
  steps. The lemmas state the game's invariants and the shape of a round.
- `GameServer` (game_server.dfy) holds the globals as fields of the class
  `CrashServer`. `GetBalance` only reads the fields. Every other handler and
  every round-loop step is a method with `modifies this` that requires and
  keeps `Valid()` (the `WellFormed` shape) and keeps `Solvent()` (`Inv`)
  when its amount is `>= 0`. Its `ensures` ties
  the new fields to a `CrashGame` function, through the ghost `Snapshot()`:
  `TopupBalance` to `TopUp`, `Climb` to `Ticks`, `RunRound` to `RoundLoop`,
  and the rest to their namesakes. `Climb` is the
  climb loop `while current_multiplier < crash_multiplier`, proved with loop
  invariants. `RunRound` is one pass of the round loop.

Units. Every amount in the game is a multiple of 0.01, so the model uses
integers only:
- top-up amounts, stakes and the bet book are in cents;
- the ledger is in ten-thousandths, so a payout (stake in cents times
  multiplier in hundredths) is credited exactly;
- the multiplier and the crash target are in hundredths: 1.00 is 100, and the
  target range is 150..300.

Behaviour of the code that the model keeps as written:
- A second bet in the same round replaces the first, and the first stake
  stays debited (`RebetLosesEarlierStake`).
- Negative top-ups and negative stakes are not rejected. The model has two
  invariants. `WellFormed` is the shape every reachable state keeps, whatever
  the amounts: live bets only for users with a ledger entry, no bets between
  rounds, the multiplier between 1.00 and the target. `Inv` adds no negative
  balance or stake. `Inv` is kept whenever every amount is `>= 0`
  (`RunPreservesInv`); a negative amount can break it
  (`NegativeStakePaysNegative`, a reachable state where a cashout pays a
  negative amount).
- The debit in `place_bet` and the credit in `cashout` look the user up
  without a default. A user with no ledger entry who passes the balance check
  (a stake of 0 or less) makes the handler fail, and nothing changes
  (`Refused(MissingAccount)`). For cashout this cannot happen in a reachable
  state (`CashoutPaysLiveBet`).
- The crash is two steps of the round loop, because the loop awaits the crash
  broadcast between `round_active = False` and `bets.clear()`. `CloseRound`
  ends betting and `ForfeitBets` drops the bets. A cashout that lands between
  them is paid at the crash multiplier. One that lands after them is refused.
  The two never both happen (`CashoutOrForfeit`). The ghost `phase`
  (`Idle`, `Running`, `Crashing`) records where the round loop is.
- `get_balance` returns a user's balance, or 0 for a user never seen.

## Model

| member | source | states |
|---|---|---|
| CrashGame.Initial | main.py:30-35 | the start state: no balances, no bets, multiplier 1.00, target 2.00, round inactive; it satisfies the invariant and every balance reads 0 |
| CrashGame.TopUp | main.py:43-46 | the user's balance rises by exactly the amount, the user now has a ledger entry, every other balance, the bets and the round state are unchanged |
| CrashGame.PlaceBet | main.py:49-57 | refused with no change when no round is active or the balance is below the stake; accepted exactly when the round is active, the user has an entry and it covers the stake; then the balance drops by the stake, the bet book maps the user to the new stake (replacing any earlier one), other users and the round are untouched |
| CrashGame.Cashout | main.py:60-67 | with no live bet, refused with no change; paid exactly when a live bet and a ledger entry exist, crediting stake times current multiplier and removing only that bet; round untouched |
| CrashGame.Handle | main.py:38-67 | no player request changes the multiplier, the target, the round flag, the loop position or the broadcasts, and none removes a ledger entry; a balance query answers the stored balance (0 for an unknown user) and changes nothing |
| CrashGame.Serve | main.py:38-67 | a sequence of player requests never removes a ledger entry (that it keeps the round state: ServeKeepsRound) |
| CrashGame.StartRound | main.py:85-88 | the round becomes active with multiplier 1.00 and the drawn target in 1.50..3.00; balances and bets untouched; a start event is broadcast |
| CrashGame.Tick | main.py:90-93 | the multiplier rises by exactly 0.01 and stays at most the target; the new value is broadcast; nothing else changes |
| CrashGame.CloseRound | main.py:95-96 | when the multiplier has reached the target, the round becomes inactive, balances and bets are untouched, one crash event is broadcast |
| CrashGame.ForfeitBets | main.py:97 | the bet book is emptied and balances are untouched |
| CrashGame.Advance | main.py:83-97 | the next step of the round loop: from the pause it starts a round at 1.00 with the drawn target; while the multiplier is below the target (the guard at main.py:90) it ticks by 0.01; at the target it closes the round; after the crash broadcast it empties the bets; it never touches balances and appends at most one broadcast. It keeps WellFormed and Inv (AdvanceKeepsWellFormed, AdvancePreservesInv); from the pause, step k+1 is the k-th tick (LoopClimbs) |
| CrashGame.RoundLoop | main.py:81-97 | n steps of the round loop leave every balance as it was and only append to the broadcasts, at most one event per step; a whole round is (target - 1.00 in hundredths) + 3 steps of it (RoundSteps, FullRound) |
| CrashGame.Run | main.py:38-97 | any interleaving of requests and loop steps only appends to the broadcasts and never removes a ledger entry; with no loop step in it, the round state is unchanged. It keeps WellFormed (RunKeepsWellFormed), and Inv with non-negative amounts (RunPreservesInv) |
| CrashGame.Ticks | main.py:90-93 | after n ticks the multiplier is exactly n hundredths higher, the round is still running, balances and bets are untouched and n update events were broadcast |
| CrashGame.BalanceQueryIsPure | main.py:38-40 | a balance query changes nothing, answers the stored balance for a known user and 0 for a user never topped up |
| CrashGame.UpdatesAt | main.py:90-93 | the i-th update of a round carries multiplier start + i |
| CrashGame.UpdatesLength | main.py:90-93 | n ticks broadcast exactly n updates |
| CrashGame.StrictlyIncreasingUpdates | main.py:90-93 | each update's multiplier is one hundredth above the previous one |
| CrashGame.LoopClimbs | main.py:85-93 | the round loop's (k+1)-th step after a pause is the k-th tick after the start, for every k up to target - 1.00 |
| CrashGame.RoundClimbsToTarget | main.py:85-92 | a round stays running for target - 1.00 ticks, the multiplier after the k-th step being 1.00 + (k-1) hundredths: it never crashes earlier |
| CrashGame.RoundSteps | main.py:85-97 | the step after the last tick closes the round (the crashing state where a cashout may still land) and the next one forfeits the bets |
| CrashGame.RoundEnd | main.py:85-97 | starting a round, ticking up to the target, closing and forfeiting leaves the bets empty, the balances untouched, the multiplier at the target, the round inactive, and appends start, the updates 1.01..target and one crash to the broadcasts |
| CrashGame.FullRound | main.py:81-97 | a whole round ends with bets empty, balances untouched, multiplier equal to the target, the round inactive, and broadcasts start, the updates 1.01..target and exactly one crash |
| CrashGame.ServeKeepsRound | main.py:38-67 | any sequence of player requests leaves the round state unchanged |
| CrashGame.ClosedRoundRefusesBets | main.py:51-52 | once the round is inactive, every bet is refused with RoundNotStarted after any sequence of player requests (loop steps in between: NoBetUntilNextStart) |
| CrashGame.FreshBetConservesFunds | main.py:55-56 | for a user with no live bet, a successful bet keeps balance plus stake equal to the old balance |
| CrashGame.RebetLosesEarlierStake | main.py:56 | two accepted bets leave only the second in the book and both stakes debited |
| CrashGame.BetKeepsBalanceNonNegative | main.py:53-55 | from a non-negative balance, a bet with a non-negative stake leaves a non-negative balance |
| CrashGame.SecondCashoutFails | main.py:62-67 | in every state a second cashout in a row pays nothing and changes nothing; in a well-formed state (every reachable one) it is refused with BetNotFound |
| CrashGame.CashoutPaysLiveBet | main.py:62-65 | in a well-formed state (every reachable one) a cashout pays exactly when the user has a live bet; with non-negative amounts the payout is non-negative |
| CrashGame.CrashForfeitsStakes | main.py:95-97 | the crash keeps every balance, empties the bets, deactivates the round and then refuses every bet |
| CrashGame.CashoutOrForfeit | main.py:95-97 | in every well-formed state, whatever the amounts, a cashout racing the crash is either paid at the crash multiplier before the bets are cleared, or refused after with the balance untouched, never both |
| CrashGame.HandleKeepsWellFormed | main.py:38-67 | every request, with an amount of either sign, keeps the shape: bets only for users with a ledger entry, the round state untouched |
| CrashGame.AdvanceKeepsWellFormed | main.py:81-97 | every step of the round loop keeps the shape: 1.00 <= multiplier <= target in 1.50..3.00, round active exactly while climbing, no bets in the pause, multiplier at the target while crashing |
| CrashGame.RunKeepsWellFormed | main.py:38-97 | any interleaving of requests of either sign and loop steps keeps the shape |
| CrashGame.NoBetBetweenRounds | main.py:49-57 | from server start, whatever the amounts, no bet survives into the pause between rounds and every live bet has a ledger entry |
| CrashGame.NoBetUntilNextStart | main.py:51-52 | from an inactive round, every bet is refused with RoundNotStarted after any requests and loop steps that do not start a new round (at most the forfeit step) |
| CrashGame.NegativeStakePaysNegative | main.py:45 | a top-up of 0 and a stake of -0.10 during a round reach a state with a negative stake where a cashout pays -0.10 |
| CrashGame.HandlePreservesInv | main.py:38-67 | every request with a non-negative amount keeps the invariant (balances and stakes non-negative, bets only for users with an entry, bets empty between rounds) |
| CrashGame.AdvancePreservesInv | main.py:81-97 | every step of the round loop keeps the invariant (1.00 <= multiplier <= target in 1.50..3.00, round active exactly while climbing) |
| CrashGame.RunPreservesInv | main.py:38-97 | any interleaving of such requests and loop steps keeps the invariant |
| CrashGame.BalanceNeverNegative | main.py:43-67 | from server start, with non-negative amounts, no balance is ever negative (and no bet survives into the pause between rounds) |
| CrashGame.WinScenario | main.py:43-67 | top up 100.00, bet 50.00, climb to 1.75 and cash out: 87.50 is paid and the balance ends at 137.50 |
| GameServer.CrashServer.constructor | main.py:30-35 | the globals start in the initial state, which is valid and solvent |
| GameServer.CrashServer.GetBalance | main.py:39-40 | returns the stored balance or 0 for an unknown user and changes nothing |
| GameServer.CrashServer.TopupBalance | main.py:44-45 | updates the fields in place as TopUp; keeps Valid whatever the amount, and Solvent for a non-negative amount |
| GameServer.CrashServer.PlaceBet | main.py:50-57 | updates the fields in place and replies as PlaceBet; keeps Valid whatever the stake, and Solvent for a non-negative stake |
| GameServer.CrashServer.Cashout | main.py:61-67 | updates the fields in place and replies as Cashout; keeps Valid and Solvent |
| GameServer.CrashServer.StartRound | main.py:85-88 | updates the fields in place as StartRound; keeps Valid and Solvent |
| GameServer.CrashServer.Tick | main.py:90-93 | updates the fields in place as Tick; keeps Valid and Solvent |
| GameServer.CrashServer.CloseRound | main.py:95-96 | updates the fields in place as CloseRound; keeps Valid and Solvent |
| GameServer.CrashServer.ForfeitBets | main.py:97 | clears the bets in place as ForfeitBets; keeps Valid and Solvent |
| GameServer.CrashServer.Climb | main.py:90-93 | from any valid running state, the while loop ticks exactly target minus current multiplier times and stops with the multiplier equal to the target; keeps Valid and Solvent |
| GameServer.CrashServer.RunRound | main.py:81-97 | one pass of the round loop takes exactly target - 1.00 ticks, leaves balances unchanged, bets empty, multiplier at the target, and broadcasts start, the updates and one crash; keeps Valid and Solvent |

## Left out

- The FastAPI app, the CORS middleware and the pydantic request models (main.py:1-27): framework plumbing. The requests become the `Request` datatype.
- The WebSocket endpoint, the `connections` registry and `broadcast` (main.py:70-78, 99-101): network I/O. What is broadcast is kept as the ghost sequence `broadcasts` / the `log` field, to state the order of events.
- The `asyncio.sleep` pauses (3 s between rounds, 0.1 s per tick) and the start-up task (main.py:84, 91, 103-105): the round loop's steps are explicit calls. Requests may interleave with any step in `Run`. In `RunRound`, no request interleaves.
- `random.uniform` (main.py:87): the crash target is a parameter in 150..300 hundredths. The distribution is not modelled.
- Floating point and `round(..., 2)` (main.py:40, 66, 87, 92): amounts are exact integers. The two-decimal display rounding of the balance reply and of the payout message is not modelled.
- The unused `auto_cashout` field (main.py:56) and the response texts: replies are the `Reply` datatype.
- A failing broadcast (main.py:99-101): `await ws.send_json` on a dead connection raises, and so does a client connecting or disconnecting while `broadcast` walks `connections`: the endpoint adds a key to that dict at main.py:73 and deletes one at main.py:78, and the loop at main.py:100 then raises RuntimeError. Either failure ends the round loop task (main.py:88, 93, 96), possibly leaving `round_active` true for good. `Advance` assumes every broadcast returns, so the model's round loop never stops.
- The outer `while True` of the round loop (main.py:83): `Advance` gives the next step of the loop forever, and `RunRound` models one pass.
