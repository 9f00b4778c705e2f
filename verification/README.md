# A verified model of the hold'em engine, its table and its services

A poker table, in this repository, is an engine that deals, takes bets and settles, a `PokerTable` that turns it into a
closed protocol for a host, and services around it: a host wallet, a framed data channel between peers, and an
introduction service that brings peers together. This project states in Dafny what those parts do and proves what they
promise, for every hand, every order of calls and every run.

The state of each part is a value and each of its operations a function of it. The engine, the table, the wallet, the
data channel's peer, the rate limiter and the introduction service are classes whose methods, with the source's loops
and field updates, are proved to compute those functions and to keep the invariants; the results are lemmas about the
functions, so they hold of these objects.

The main results:

- The counting evaluator with its straight table scores every 5 to 7 cards as the best of their five-card subsets does
  (`Evaluator`, `HandScoring`).
- Side pots are exact, and settlement pays every seat, to the chip, its uncalled bet and its share of each pot its hand is
  best for on each board; a beaten hand wins nothing. Cash-out conserves every chip, and the two settlements, `settle` and
  `settle_forfeit`, agree exactly when the player who left holds no uncalled bet (`Pots`, `Settlement`, `Awards`,
  `Winnings`, `Cashout`, `CashoutShares`).
- Every betting move keeps a round invariant with the reopening rule for short all-ins in both directions; the turn passes
  to the nearest seat still asked, and a round closes only when everybody able to act has acted and matched the bet
  (`Game`, `Betting`, `Turns`).
- Over any calls to a table chips are conserved, no hand is stuck or endless, the conservation error is unreachable, the
  big blind comes to every seat once a turn with button and small blind behind it, a hand between seats that can still
  bet is settled only after the river, no recorded Fixed-Limit hand costs a seat more than 25 big blinds and an ante, and
  the cards of a hand are the deck it was dealt from, to the settled state (`Opening`, `Dealing`, `Settling`, `Table`,
  `HandFlow`, `Blinds`, `Buttons`, `FixedLimit`, `HandLoss`, `CardRuns`).
- While betting lasts, what a seat is shown depends on its own cards and the board only (`Privacy`).
- The computer player's move is accepted in every sound round (`Brain`); a hand is mucked exactly if it
  wins nothing and one already shown beats it (`Showdown`).
- The wallet and the tables of a tavern conserve chips together and pay each receipt once; every balance is
  what its player brought, less buy-ins, plus final chips (`Wallets`, `Taverns`).
- Framing and reassembly are inverse both ways, in bounded memory, however reads fall between the frames (`Framing`,
  `FramingStreams`).
- The request limits admit exactly what capacity and refill allow in every window, and forgetting idle buckets does not
  show (`RateLimit`).
- The introduction service accounts for every byte and challenge, and passes one offer to each guest and then one answer
  to the host of its room, over every interleaving of its atomic steps (`Introduction` and its five companions).

Two properties one might expect do not hold, and the model keeps the code as it is. A cash-out can charge a rival a
chip: `CashoutShares.CashoutChargesRival` is an offer that does, and `CashoutShares.CashoutChargesNobody` says exactly
when none does. A clock that goes back lets a rate limit admit more than capacity plus refill for the time spanned:
`RateLimit.ClockBackRefills` shows it, and `RateLimit.AdmitsWithinRate` gives the bound that holds for every clock, equal
to the time spanned exactly if the clock never goes back.

Where code and comments differ the model follows the code: `settle` returns an uncalled bet to a seat that has folded
too, and in Fixed-Limit `min_raise` starts each street at one big blind although the unit doubles on the turn.

## Model

| member | source | states |
|---|---|---|
| Evaluator.ScoreOrder | holdem/engine.py:132-202 | scores are totally ordered, as the tuples the code compares: of two, one is at most the other, and both ways only if they are equal |
| Evaluator.MakesMonotone | holdem/engine.py:132-202 | more cards never make less, for the independent reading `Makes` of "these cards make this score" |
| Evaluator.FiveMake | holdem/engine.py:132-202 | whatever five to seven cards make, five of them make |
| Evaluator.EvaluateIsBest | holdem/engine.py:132-202 | `evaluate` returns a score the cards make, and no score they make is higher |
| Evaluator.EvaluateIsMaxOfFive | holdem/engine.py:132-202 | for any 5 to 7 distinct cards the count-driven score is the maximum over all five-card subsets, and one subset attains it |
| HandScoring.StraightRow | holdem/engine.py:111-124 | the downward run-counting scan finds the highest straight of a rank mask, the ace also low, and 0 if there is none |
| HandScoring.BuildStraightTable | holdem/engine.py:107-129 | every 15-bit mask looks up to the highest straight it holds |
| HandScoring.Tally | holdem/engine.py:132-160 | the loop counts ranks and suits and sets the mask bits of exactly the ranks held |
| HandScoring.EvaluateCards | holdem/engine.py:132-202 | the mask-and-count code computes `Evaluate` of the set of cards, so the order of the cards does not matter |
| HandScoring.CombinationsComplete | holdem/engine.py:216 | every subset of the cards is among the combinations |
| HandScoring.BestFive | holdem/engine.py:212-222 | five of the cards, different, scoring exactly as the whole hand does |
| Pots.ComputePots | holdem/engine.py:347-379 | the loop over the stake levels builds the pots the lemmas below are about |
| Pots.PotsHoldAllChips | holdem/engine.py:347-379 | every live and dead chip is in a pot: the amounts sum to all of them |
| Pots.SidePotsShrink | holdem/engine.py:347-379 | every pot has chips and somebody to win it, and eligible sets strictly shrink from pot to pot |
| Pots.SidePotsTop | holdem/engine.py:347-379 | a contender with the top stake is listed in every pot |
| Pots.SidePotsListed | holdem/engine.py:347-379 | a contender below the top stake is listed for exactly the dead chips plus the sum of min(live of each seat, own live) |
| Pots.SidePotsUpward | holdem/engine.py:347-379 | a pot that lists a contender lists every contender who staked at least as much |
| Settlement.UncalledExact | holdem/engine.py:1049-1060 | a bet comes back exactly when one seat bet more than every other and the next largest is a real bet, and exactly the excess comes back |
| Settlement.ShareSum | holdem/engine.py:1137-1150 | sharing a pot pays out exactly its chips |
| Settlement.ShareIsFair | holdem/engine.py:1137-1150 | each winner gets the equal share, and one more chip exactly if it is among the first odd-chip winners left of the button |
| Awards.WinnersAreBest | holdem/engine.py:1121-1127 | the winners of a pot are exactly the eligible seats no eligible seat outscores, and there is one |
| Awards.AwardConserves | holdem/engine.py:1113-1153 | over all pots and runs every chip is paid and no seat wins more than it is listed for |
| Awards.SettleConserves | holdem/engine.py:1049-1153 | stacks after settlement hold all chips; a seat gets its uncalled bet back and wins between nothing and what it is listed for |
| Winnings.SharePays | holdem/engine.py:1126-1150 | of a shared amount every winner gets the equal share, the first winners left of the button one chip more, to the chip |
| Winnings.SharersAre | holdem/engine.py:1120-1135 | who shares a pot in a run: the one seat left, or exactly the eligible seats that no eligible seat outscores |
| Winnings.SettlePaysBest | holdem/engine.py:1041-1153 | every stack after settlement is, to the chip, the stack, the uncalled bet and, over the pots and runs, the seat's share and odd chip where its score is the best among the eligible |
| Winnings.BeatenSeatWinsNothing | holdem/engine.py:1120-1150 | a seat that in every pot listing it is outscored in each run by another eligible seat gets its stack and its uncalled bet only |
| Winnings.RunoutIs | holdem/engine.py:1022-1037 | which cards of the deck a run-out puts on the board, by position |
| Winnings.SettlePaysHands | holdem/engine.py:1041-1224 | in the settled table every stack and every `won` is that amount, with the scores `evaluate` gives the hole cards and each run's board |
| Winnings.BeatenHandWinsNothing | holdem/engine.py:1041-1224 | a hand beaten on every board by another hand in each pot it is in wins nothing |
| Winnings.ForfeitPays | holdem/engine.py:1229-1320 | what every seat is paid when a player has left, to the chip: its share and odd chip of each pot that lists it among those who stay, and its own uncalled bet |
| Awards.SettleOutsider | holdem/engine.py:1049-1153 | a seat out of the hand gets its own uncalled bet back and nothing else |
| Awards.PotPayouts | holdem/engine.py:1308-1316 | equal shares and the odd-chip walk round the table, as one loop each, compute the share the fairness lemma is about |
| Awards.SettleForfeit | holdem/engine.py:1229-1320 | the code path by path, refusals of malformed tables included |
| Awards.ForfeitConserves | holdem/engine.py:1229-1320 | a forfeit keeps every chip and leaves the dropper's stack as it was |
| Awards.ForfeitAgrees | holdem/engine.py:1229-1320 | on a tie run once, `settle_forfeit` and `settle` with the dropper folded give the same stacks if and only if the dropper holds no uncalled bet |
| Cashout.CashoutSplit | holdem/engine.py:382-454 | the loops of `cashout_split` compute the split the lemmas below are about |
| Cashout.CashoutConserves | holdem/engine.py:382-454 | payouts plus refund equal the whole pot, for any equity and fee |
| Cashout.CashoutHero | holdem/engine.py:419-445 | the hero gets its sole pots plus `net` |
| Cashout.CashoutPrice | holdem/engine.py:433-435 | the offer prices exactly the chips of the pots the hero contests with somebody: gross is the whole part of its equity in them, net of that less the fee |
| Cashout.PayRivalsEvenly | holdem/engine.py:446-450 | each rival of a pot gets the equal share of its rest, and one chip more exactly if it is among the first odd ones |
| Cashout.CashoutNeedsPot | holdem/engine.py:421-431 | no offer is made exactly when some pot has two or more eligible seats and not the hero |
| Cashout.CashoutRefusal | holdem/engine.py:421-431 | for a hero in the hand, no offer is made exactly when two contenders staked more than the hero, which is visible before the call |
| CashoutShares.CashoutPays | holdem/engine.py:419-450 | every seat is paid, to the chip, its sole pots and its share of each contested pot that lists it: the hero its part, each rival an equal share of the rest, the first ones an odd chip more |
| CashoutShares.CashoutChargesRival | holdem/engine.py:438-450 | stakes of 8, 19, 36 and 36 with an ante of 1, a hero in the last seat sure to win and the default fee: the offer pays the seat that staked as much as the hero -1 |
| CashoutShares.PartsFitExactly | holdem/engine.py:438-443 | for any positive contested pots and any net, every part lies within its pot if and only if the net does and the chips that are not the hero's pay the rests of all pots but the biggest, each rounded up |
| CashoutShares.CashoutChargesNobody | holdem/engine.py:438-450 | an offer has no pot pay any seat a negative amount exactly under that condition, and then no payout is negative |
| CashoutShares.PartsFit | holdem/engine.py:438-443 | with at most two contested pots the condition always holds |
| CashoutShares.NetWithin | holdem/engine.py:433-435 | an equity and a fee between none and all give a net within the contested chips |
| Game.SeekNearest | holdem/engine.py:525-531 | the seat sought is the nearest one forward |
| Game.NextIn | holdem/engine.py:517-523 | the next seat is in the set and no seat of the set is fewer steps ahead |
| Betting.LegalRaise | holdem/engine.py:806-835 | a legal raise always raises the bet, lies in range, is all-in if short, and keeps to the Fixed-Limit unit and the pot limit |
| Betting.LegalCall | holdem/engine.py:806-809 | a call is within the stack and matches the bet unless it is the whole stack |
| Betting.FinishKeeps | holdem/engine.py:987-989 | after the turn passes, the round is sound and every seat that can act and is not asked has acted |
| Betting.FullRaisePending | holdem/engine.py:934-943 | a full raise asks every other seat that can act and lifts every restriction |
| Betting.ShortRaisePending | holdem/engine.py:944-963 | a short all-in asks the seats behind and restricts exactly those the bet has grown too little for since they acted, short all-ins counted together |
| Betting.ActIs | holdem/engine.py:851-989 | an accepted move is the fold, call or raise it names: the raise-as-call branch is dead |
| Betting.ActKeepsRound | holdem/engine.py:851-989 | every accepted move keeps the round sound: no bet above the current one, whoever is not asked has matched it, and rule 47-A of the Poker TDA rules: a seat asked again may raise exactly if the bet grew by a full raise since it acted |
| Betting.RoundCloses | holdem/engine.py:851-989 | a round closes only when every seat that can act has acted in it and bet the current bet |
| Betting.RaiseRaises | holdem/engine.py:895-963 | an accepted raise goes to its target, strictly above the old bet; a short one is all-in and leaves `min_raise`, a full one sets it and reopens the betting for everybody |
| Betting.ActMoves | holdem/engine.py:851-989 | a move touches its own seat only and leaves cards, positions and street alone |
| Betting.ActProgress | holdem/engine.py:851-989 | a move keeps all chips, and commits some or shortens the list of seats still asked |
| Turns.NextActor | holdem/engine.py:987-989 | after every accepted move the next to act is the nearest seat still asked, walking on from the mover, and nobody exactly when nobody is asked |
| Turns.AskedNext | holdem/engine.py:934-989 | who is still asked after a move: after any raise every other seat that can act, after any other move those asked before without the mover |
| Turns.LegalIs | holdem/engine.py:806-849 | when a seat may raise and from where to where, in each betting structure, written out: Fixed-Limit's one amount and four raises, the pot limit after a call, the no-limit stack |
| Turns.RaiseTaken | holdem/engine.py:851-886 | a raise is accepted exactly if the seat may raise and, but for Fixed-Limit, the amount lies in that range |
| Turns.CommandTaken | holdem/embedding.py:149-165 | which commands a table accepts, of whom |
| Turns.MoveDoes | holdem/engine.py:887-931 | what an accepted move does to the mover: a fold only folds it, a call brings its bet to the current one or all its chips, a raise to the amount named, in Fixed-Limit to the one size |
| Turns.MoveTells | holdem/engine.py:887-985 | the one event a move emits, with its amounts, and when the mover becomes the last aggressor of the river |
| Betting.OpenRoundOk | holdem/engine.py:793-802 | a round opens sound, and asks somebody as soon as two seats can act |
| Betting.NextStreetOk | holdem/engine.py:993-1018 | a new street is sound again |
| Betting.BringInOk | holdem/engine.py:690-724 | posting keeps seats sound and all chips; the bring-in is one full big blind even when the big blind is short |
| Betting.StartedOk | holdem/engine.py:642-760 | a started hand is a sound round holding all chips of the table |
| Opening.BlindsTaken | holdem/engine.py:690-724 | each seat of a started hand has put in exactly its blind and ante, or its whole stack, and a call costs one big blind |
| Opening.StartTells | holdem/engine.py:642-724 | the events of a started hand: stakes, small blind or that it is dead, big blind and ante, with amounts, all-in marks and the pot after each |
| Opening.HolesDealt | holdem/engine.py:743-752 | each seat dealt in gets two cards, one at a time round the table from the left of the button, off the end of the deck |
| Opening.FirstActs | holdem/engine.py:754-759 | the first to act is the nearest able seat from the button heads-up, else from the left of the big blind |
| Opening.StartAsks | holdem/engine.py:754-802 | a started hand asks every seat able to act, or nobody exactly when at most one can act and it has matched the blind |
| Dealing.ActKeepsCards | holdem/engine.py:851-989 | no move touches a card |
| Dealing.NextStreetKeepsCards | holdem/engine.py:993-1018 | a street moves cards from the deck to the end of the board: none is lost or doubled |
| HandFlow.StreetOpens | holdem/engine.py:993-1018 | flop, turn and river start without bets or raises and tell their board; asked first is the nearest able seat left of the button, and with two able seats all of them are asked |
| Dealing.StartKeepsCards | holdem/engine.py:743-752 | after the deal, holes, board and deck are together the 52 cards, two to each seat dealt in |
| Settling.RunOutBoard | holdem/engine.py:1087-1091 | running the board once appends exactly the cards `peek_runout` shows, in order, and takes them off the deck |
| Settling.ComputePeek | holdem/engine.py:1022-1037 | the peeking loop computes those cards without dealing them |
| Settling.RunOneSameCards | holdem/engine.py:1072-1091 | run 1 of run-it-twice has the same five board cards as running once |
| Settling.RunOneSameScores | holdem/engine.py:1070-1103 | hence run 1 scores every seat as running once does |
| Settling.SettleOk | holdem/engine.py:1041-1224 | settling leaves an idle table holding every chip of the hand; a seat not dealt in has nothing |
| CardRuns.RunTwiceKeepsCards | holdem/engine.py:1072-1079 | running twice: both boards continue the cards dealt so far, and the deck, the first board and the new cards of the second are together the old deck and board |
| CardRuns.SettleKeepsCards | holdem/engine.py:1041-1224 | settling with one run or two loses and doubles no card |
| CardRuns.HandKeepsDeck | holdem/embedding.py:137-192 | from the start of a hand through any calls until the next, in every state and the settled one too, holes, board and deck together are exactly the deck it was dealt from |
| Showdown.ShowOrder | holdem/engine.py:1155-1168 | every seat left in the hand shows in turn, once, as a walk meets them: from the last to bet or raise on the river, else, or with tabled hands, from the left of the button |
| Showdown.ShowOrderComplete | holdem/engine.py:1162-1168 | that order names every seat left in the hand exactly once |
| Showdown.ShowHands | holdem/engine.py:1170-1192 | every seat shows or mucks; a seat shows exactly if hands are tabled, it wins a pot, or no hand shown before beats its own |
| Engines.Engine.LegalFor | holdem/engine.py:806-849 | the branches of `legal` compute the legal moves the betting lemmas are about |
| Engines.Engine.Restrict | holdem/engine.py:956-963 | the loop over the seats behind leaves exactly the restricted seats of the short all-in rule, and asks those seats |
| Engines.Engine.Act | holdem/engine.py:851-989 | the object's new state is the move's, or a refusal that leaves every field alone |
| Engines.Engine.OpenBetting | holdem/engine.py:793-802 | the fields after the call are the opened round |
| Engines.Engine.NextStreet | holdem/engine.py:993-1018 | the fields after the call are the next street |
| Engines.Engine.AdvancePositions | holdem/engine.py:596-640 | the fields after the call are the positions the rotation results are about |
| Engines.Engine.StartHand | holdem/engine.py:642-760 | the fields after the call are the started hand: positions, seats, blinds, bring-in, deal and first to act |
| Engines.Engine.RunBoard | holdem/engine.py:1087-1091 | the run-out loop deals the streets that are left |
| Engines.Engine.AwardRun | holdem/engine.py:1137-1150 | adding shares and odd chips player by player gives each stack its fair share, counted as won |
| Engines.Engine.Settle | holdem/engine.py:1041-1224 | refund, board, scores by the evaluator, pots, award and clearing leave the settled state |
| Table.AdvanceKeeps | holdem/embedding.py:167-192 | `_advance` keeps every chip, waits only for a seat that can act, and moves the hand nearer its end or settles it |
| Table.CommandKeeps | holdem/embedding.py:149-165 | every accepted command keeps the table sound and lowers the measure (streets left, chips behind, seats asked) |
| HandFlow.AdvanceExactly | holdem/embedding.py:167-192 | `_advance` settles a hand exactly if one seat is left, or the round is closed and the river was played or at most one seat can bet; otherwise it waits for the seat to act, or deals one street and waits for the nearest able seat left of the button |
| HandFlow.CommandLeads | holdem/embedding.py:149-192 | where an accepted command leads: to the settled hand exactly if it is over, else to the nearest seat still asked walking on from the mover, or one street on to the nearest able seat left of the button |
| HandFlow.StartLeads | holdem/embedding.py:137-147 | a started hand is led on in the same way |
| HandFlow.RunSettlesOnTime | holdem/embedding.py:149-192 | over any run, a command that settles a hand with two or more seats left has closed the round, everybody able having acted and matched, on the river or with at most one seat able to bet |
| HandFlow.CommandPays | holdem/embedding.py:149-192 | the hand a command settles is recorded under its number with the chips of its start and, for every seat, its stack after its last move with its uncalled bet and what its hand wins, to the chip |
| Table.RunConserves | holdem/embedding.py:137-246 | over any calls in any order stacks, live and dead chips sum to the buy-ins, no stack is negative, the receipt holds every chip, and the conservation error is unreachable |
| Table.NeverStuck | holdem/embedding.py:149-165 | in a hand the seat to act is asked and able, and exactly the commands in range are accepted: fold and call always |
| Table.HandEnds | holdem/embedding.py:137-192 | a hand takes a bounded number of accepted commands, so it ends |
| Table.StartIs | holdem/embedding.py:137-147 | a hand starts exactly at an open table between hands with two funded seats |
| PokerTables.PokerTable.constructor | holdem/embedding.py:78-118 | a new table is the opened table of the run results |
| PokerTables.OpenTable | holdem/embedding.py:78-118 | a table for two to nine different players with positive buy-ins and blinds in order, and a refusal for any other arguments |
| PokerTables.PokerTable.Advance | holdem/embedding.py:167-192 | the loop over the mutated engine ends in the state `_advance` leads to |
| PokerTables.PokerTable.StartHand | holdem/embedding.py:137-147 | the object's new state is the call's, or it is unchanged |
| PokerTables.PokerTable.Command | holdem/embedding.py:149-165 | the object's new state is the command's, or it is unchanged |
| PokerTables.PokerTable.Close | holdem/embedding.py:231-246 | the receipt once no hand is on, and the same one however often it is asked for |
| Blinds.BlindsDiffer | holdem/engine.py:596-640 | small and big blind never share a seat, and heads-up the button is the small blind |
| Blinds.FairTurn | holdem/engine.py:610-640 | between two big blinds of one seat every other seat that kept chips posts it exactly once |
| Blinds.RunRotates | holdem/embedding.py:137-147 | over any run of a table, through hands, busts and commands, each big blind is the next seat with chips after the last one |
| Blinds.RunIsFair | holdem/embedding.py:137-147 | over any run of a table, between two big blinds of one seat every other seat that kept chips throughout posts the big blind exactly once |
| Buttons.RunSeats | holdem/embedding.py:137-147 | over any run of a table, where button and blinds are in every hand: the first hand from the first seat; then the big blind on the next seat with chips, the small blind on the last big blind and the button on the last small blind, heads-up both on the other seat |
| FixedLimit.ActKeepsLimit | holdem/engine.py:817-823 | in Fixed-Limit a raise adds at most one unit, counts once, and there is no fifth |
| FixedLimit.RunKeepsLimit | holdem/engine.py:817-823 | over any run of a Fixed-Limit table, while a hand waits for a seat, no street has more than four raises and no seat's live chips exceed 25 big blinds |
| HandLoss.LiveBound | holdem/engine.py:817-823 | the same bound on live chips in every sound state of the hand, the one it is settled in included |
| HandLoss.SettleLeaves | holdem/engine.py:1041-1224 | settling takes nothing from a stack |
| HandLoss.RunBoundsLoss | holdem/embedding.py:167-192 | over any run of a Fixed-Limit table every hand result it records has each seat lose at most 25 big blinds and, if the table plays it, the big blind's ante |
| Privacy.SameAct | holdem/engine.py:851-989 | two hands equal but for the cards accept the same moves and stay equal but for the cards |
| Privacy.SameAdvance | holdem/embedding.py:167-192 | `_advance` waits or settles whatever the cards are |
| Privacy.SameView | holdem/contract.py:72-112 | hands equal but for the cards, with the same own cards and board, give the same view |
| Privacy.ViewsHideCards | holdem/embedding.py:194-225 | deal any two decks and make the same calls: both hands are in the same phase, and while betting lasts a seat's views are equal if and only if its own cards and the board are |
| Privacy.EffectiveIs | holdem/player_info.py:191-199 | the effective stack shown is the seat's own chips or the largest rival's, whichever is less |
| Privacy.ShowsMadeHand | holdem/player_info.py:94-107 | a seat is told what it makes exactly from the flop on: the best of its cards and the board; the board is said to play exactly if all five of it score as much |
| Privacy.ViewTellsTruth | holdem/contract.py:72-112 | a view tells the truth: pot, stacks, bets, badges and the seat to act are the table's, pot and stacks make up all buy-ins, and exactly the commands within the choices shown are taken |
| Privacy.TurnTells | holdem/player_info.py:116-216 | the turn state shown says folded, all-in, your turn or another's exactly when that is so |
| Privacy.DecisionForetells | holdem/player_info.py:213-239 | what the decision shown says of a call is what a call does: its cost, the pot and the stack after it, and whether it is all-in |
| Brain.SizedFits | holdem/engine.py:1469-1474 | a sized raise lies in the legal range |
| Brain.AlwaysAccepted | holdem/engine.py:1333-1467 | for every sound round, estimate, style and random draw the computer player's move is accepted, and it never folds when checking is free |
| MapSums.MapSumAt | examples/rpg_tavern.py:59-62 | a sum over a dictionary may be taken apart at any key, so iteration order does not matter |
| Wallets.FakeWallet.ReserveAll | examples/rpg_tavern.py:64-84 | all buy-ins are taken or none, a repeat changes nothing, a different one is refused |
| Wallets.FakeWallet.SettleResult | examples/rpg_tavern.py:86-117 | a close result is credited once after all checks, a repeat changes nothing, a different one is refused |
| Wallets.ReserveConserves | examples/rpg_tavern.py:64-84 | a reservation moves exactly the buy-ins from balances to the table |
| Wallets.PayConserves | examples/rpg_tavern.py:86-117 | a payout moves exactly the table's buy-ins back to balances in total |
| Wallets.ReserveTakes | examples/rpg_tavern.py:64-84 | a reservation takes from each player exactly its buy-in, which it had, and from nobody else |
| Wallets.PayCredits | examples/rpg_tavern.py:86-117 | a payout credits each player exactly its final chips, and nobody else |
| Wallets.TakenOnce | examples/rpg_tavern.py:64-84 | after a reservation the same one changes nothing and any other for the table is refused |
| Wallets.PaidOnce | examples/rpg_tavern.py:86-117 | after a payout the same receipt changes nothing, any other for the table is refused, and the table ID cannot be reserved again |
| Taverns.LeavePays | examples/rpg_tavern.py:155-160 | every receipt of a table that is not in a hand passes all the wallet's checks: the first pays, a repeat changes nothing |
| Taverns.LeaveCredits | examples/rpg_tavern.py:155-160 | the first leave of a table raises each seated player's balance by the stack it holds there, and nobody else's |
| Taverns.VisitKeeps | examples/rpg_tavern.py:127-160 | no visit breaks the tavern: balances plus reservations stay the same, and each table's buy-ins are what is reserved for it |
| Taverns.TavernConserves | examples/rpg_tavern.py:120-160 | over any visits to any tables no balance is negative, balances and open tables together hold the initial chips, each open table holds its reservation, and once all are closed every chip is back |
| Taverns.BalancesAre | examples/rpg_tavern.py:120-160 | over any visits each balance is the initial one, less the player's buy-ins, plus its final chips of the tables closed |
| Framing.UnpackPack | holdem/ice_peer.py:24 | unpacking a packed header word gives it back |
| Framing.PackUnpack | holdem/ice_peer.py:24 | packing an unpacked header word gives its bytes back |
| Framing.SendFrames | holdem/ice_peer.py:243-250 | the loop over the offsets cuts a message into the frames the results below are about |
| Framing.OnFrameKeeps | holdem/ice_peer.py:264-295 | at most eight messages and two messages' bytes are held, and an unfinished message is whole frames within the limit |
| Framing.SentIsReceived | holdem/ice_peer.py:237-295 | the frames of any message, fed to a peer with room for it, put exactly that message in its queue |
| Framing.ExchangeDelivers | holdem/ice_peer.py:237-311 | messages each read as soon as it has come, as many as there are numbers, come out as they went in |
| Framing.ReceivesOnlyStreams | holdem/ice_peer.py:264-311 | whatever arrives, a peer that has not failed has taken in exactly the frames of the messages it handed out or holds, in order, and of a prefix of the next one |
| FramingStreams.StreamReadOneWay | holdem/ice_peer.py:264-295 | frames so far that lead a stream are read one way: the messages so far lead its messages and the part in progress leads the next one |
| FramingStreams.StreamInjective | holdem/ice_peer.py:237-253 | two lists of messages with the same frames are the same list |
| FramingStreams.PartLeadsMessage | holdem/ice_peer.py:264-295 | the frames held of a message in progress lead the frames of every message it can become |
| FramingStreams.ReceivesPrefix | holdem/ice_peer.py:264-311 | whatever beginning of a sent stream arrives and whatever is read meanwhile, a peer that has not failed has a beginning of the messages sent; with the whole stream it has them all |
| FramingStreams.StreamDelivers | holdem/ice_peer.py:264-311 | for reads and time-outs anywhere between the frames, a peer goes on if and only if every message starts with room for it and none is given up half way, and then it has exactly the messages whose frames have all come |
| Framing.DirectPeer.Frame | holdem/ice_peer.py:264-295 | the fields after a frame are the reassembler's next state, or the failed state |
| Framing.DirectPeer.Receive | holdem/ice_peer.py:297-311 | the oldest message is handed out and its bytes are given back |
| Framing.DirectPeer.Send | holdem/ice_peer.py:212-253 | the frames under the next number, or a refusal: stopped, too long, or numbers used up |
| RateLimit.PruneUnseen | holdem/introduction_service.py:455-460 | a bucket idle over 300 seconds is full again in every category, so forgetting it changes no level now or later |
| RateLimit.Budget | holdem/introduction_service.py:205-217 | admissions and tokens left never exceed the tokens at the start and the refill while the clock went forward |
| RateLimit.AdmitsWithinRate | holdem/introduction_service.py:205-217 | over any requests and prunings a key is admitted at most capacity plus refill times the time the clock went forward, which is the time that passed if and only if the clock never goes back |
| RateLimit.AdmitsExactly | holdem/introduction_service.py:205-217 | under a clock that never goes back a request is admitted if and only if there is room for its bucket and, with it, no window since an earlier event holds more admissions than capacity and that window's refill |
| RateLimit.PruningDecidesAlike | holdem/introduction_service.py:455-460 | with room for a bucket of every key requested, over runs of any length, forgetting idle buckets decides every request as keeping all would |
| RateLimit.ClockBackRefills | holdem/introduction_service.py:205-217 | with a clock that goes back the bound on elapsed time fails: seven hosts are admitted within one minute |
| RateLimit.RateLimiter.Allow | holdem/introduction_service.py:205-217 | a token is taken, or the request is refused and nothing changes; buckets stay within their capacities and the table within its size |
| RateLimit.RateLimiter.Forget | holdem/introduction_service.py:459-460 | no key's level now or later changes, since every bucket that goes would be full again, and the buckets stay sound |
| IntroductionAccounts.QueueKeeps | holdem/introduction_service.py:234-248 | queueing keeps every count and limit, refused or not |
| IntroductionAccounts.RegisterKeeps | holdem/introduction_service.py:333-347 | registering a host keeps them, also when its reply is refused afterwards |
| IntroductionAccounts.JoinKeeps | holdem/introduction_service.py:348-371 | joining keeps them, also when a reply is refused part of the way |
| IntroductionAccounts.SetupKeeps | holdem/introduction_service.py:398-418 | relaying keeps them |
| IntroductionAccounts.LeftKeeps | holdem/introduction_service.py:434-444 | detaching up to its wait keeps them, and no room or place names the leaving peer |
| IntroductionAccounts.DroppedKeeps | holdem/introduction_service.py:445-453 | dropping the rest of the peer keeps them |
| IntroductionAccounts.StepKeeps | holdem/introduction_service.py:234-476 | every atomic step keeps bytes, challenges, queues and rooms in order and within their limits |
| IntroductionAccounts.RunAccounts | holdem/introduction_service.py:234-476 | after any steps in any order retained bytes equal rooms plus guests plus queued and in-flight messages within the limit, the challenge count equals the open challenges, and with nobody connected nothing is left |
| IntroductionDeliveries.SetupGoesTo | holdem/introduction_service.py:398-418 | an accepted setup message is appended to the guest's queue if the host sent it, else to the queue of the room's host, and no other queue changes |
| IntroductionDeliveries.OutgoingFrom | holdem/introduction_service.py:239-261 | at every step what is on its way to a connection loses at most its first message or gains only at its end, so messages leave in the order they were queued |
| IntroductionDeliveries.JoinTells | holdem/introduction_service.py:348-371 | a guest admitted has the guest's role and is told so, and the room's host is told of it; nobody else is told anything |
| IntroductionDeliveries.OthersTold | holdem/introduction_service.py:318-379 | an accepted lookup, register or renew is noted at the peer that made it and answered to it, and to nobody else |
| IntroductionDeliveries.RelaysReach | holdem/introduction_service.py:239-418 | over any steps, by what is queued: each guest connection is sent at most one offer, its answer is passed on at most once and only after it, to the connection hosting the room the guest was placed in, and whatever is on its way anywhere was queued so |
| IntroductionRooms.RunRight | holdem/introduction_service.py:333-371 | over any steps every guest of a room looked it up, is not its host, spent its challenge and a fresh attempt on it, and neither guest nor lease outlasts the room's record |
| IntroductionRooms.LastsAMinute | holdem/introduction_service.py:333-379 | a room registered, empty and hosted by the peer that did, or renewed, takes requests for exactly a minute, and never beyond its record |
| IntroductionRooms.RoomComesAndGoes | holdem/introduction_service.py:333-476 | at every step, a room begins exactly by a register with a checked record and an open challenge within the limits, and ends exactly when a connection that registered its route closes it or leaves, or its time is up |
| IntroductionRooms.GuestComesAndGoes | holdem/introduction_service.py:348-476 | at every step, a guest takes a place exactly by joining a live room it looked up with a checked record, an open challenge and a fresh attempt, and loses it exactly when the room ends, the host rejects it, it leaves, or its time is up |
| IntroductionRooms.PeerShuts | holdem/introduction_service.py:434-464 | a connection is shut exactly when it leaves or its challenge runs out unanswered |
| IntroductionServices.IntroductionService.Enqueue | holdem/introduction_service.py:239-248 | the fields after the call are the queued message's, or unchanged |
| IntroductionServices.IntroductionService.DropRoom | holdem/introduction_service.py:425-432 | subtracting the guests one by one gives back exactly the room's bytes |
| IntroductionServices.IntroductionService.BeginDetach | holdem/introduction_service.py:434-444 | the fields after the first half of a detach; the service stays in order |
| IntroductionServices.IntroductionService.EndDetach | holdem/introduction_service.py:445-453 | draining message by message gives back exactly the peer's bytes; the service stays in order |
| IntroductionServices.IntroductionService.RelaySetup | holdem/introduction_service.py:398-418 | the message is relayed and noted, or refused |
| IntroductionServices.IntroductionService.Accept | holdem/introduction_service.py:265-275 | a connection, its challenge counted and queued, is the connect step of the run results and keeps the service in order |
| IntroductionServices.IntroductionService.Handle | holdem/introduction_service.py:318-418 | every message, accepted or refused part of the way, is the message step of the run results and keeps the service in order |
| IntroductionServices.IntroductionService.Release | holdem/introduction_service.py:250-259 | a message sent or not gives its bytes back |
| IntroductionServices.IntroductionService.CheckRoom | holdem/introduction_service.py:465-468 | an expired room is removed with its guests, any other stays |
| IntroductionServices.IntroductionService.CheckGuest | holdem/introduction_service.py:470-473 | an expired guest is removed, any other stays |

## Left out

- Sitting out, return posts, owed blinds and the straddle (holdem/engine.py:561-593, 707-741): `PokerTable` uses none of them.
- Player objects: players are values in a field of the engine, so identity and aliasing of player objects are not modelled.
- Tavern's dictionary of tables is on values (`Taverns`), so aliasing between table objects is not modelled; the tables and the wallet themselves are classes.
- Rank masks are natural numbers with bits read and set by division, not machine words; the source's masks are Python integers.
- Floats (equity, fee, bucket tokens, the computer player's thresholds) are reals; rounding of floats is not modelled.
- Shuffling, `Deck.from_indices` and random generators: decks and draws are parameters.
- Monte Carlo equity and the Chen score: only the legality of the choice made with them is stated.
- Event texts, names, `last_action`, headlines, hand descriptions, and the events `settle` emits; the events of betting and dealing are modelled.
- Views after a hand is settled, with the hands shown: the hidden-information result is about betting.
- `winner_ids` and the identifiers of results and events.
- Showdown.ShowHands: stands beside the settled state, which does not record who showed; its order, scores and winners are parameters.
- Awards.SettleForfeit: refuses what the code refuses of integer tables; the checks that chip counts are integers are types here.
- PokerTables.OpenTable: identifier syntax is modelled only in `Taverns`, without printability, and value types are types here.
- Wallets.FakeWallet.SettleResult: checks of value types are types here, and only ASCII white space counts as blank in a name.
- Brain.AlwaysAccepted: the position and limper counts and the estimate are arbitrary inputs, which only adds choices.
- Framing.DirectPeer.Send: the limits on pending sends, back pressure and locks of the event loop are not modelled; sends are one at a time.
- Framing.DirectPeer.Receive: does not wait; an empty queue gives nothing. The incomplete-message timer is an input of `ReceivesOnlyStreams`.
- RateLimit.PruningDecidesAlike: asks for room for a bucket of every key requested, since a full table refuses new keys and pruning makes room.
- IntroductionAccounts.StepKeeps: record, signature and envelope checks, JSON, sockets and the rate decisions are arbitrary inputs of the steps, so every interleaving the event loop allows is among the runs.
- IntroductionRooms.RoomComesAndGoes: a host is a connection that registered the route; as in the code, one whose earlier room expired can still close or, by leaving, end a later room of the same route.
- Connection setup, signed invitations, mental-poker sessions, LAN and Internet sessions, the user interface, history, notes, settings, packaging.
