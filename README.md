# ChipSim blackjack and poker-table model

A Dafny model of the core of ChipSim, an iOS chip-tracking app for live card
games: the app does not deal cards, it keeps the money. The model covers

- `BlackjackGame` (Models/BlackjackGame.swift), the object a blackjack screen
  drives. It holds the bankroll, the bets of one or two boxes, split and
  double-down bookkeeping, insurance, multiplayer seats, statistics and the
  win/lose streak. Its public methods are `startGame`, `resetRound`, `placeBet`,
  `confirmBet`, `undoBet`, `hit`, `stand`, `doubleDown`, `split`, `surrender`,
  `takeInsurance`, `completeRound` and `resetGame`, plus the private
  `updateStats` and `updateStreak`;
- the seat records of Models/Player.swift (`PokerPlayer`, `BlackjackPlayer`,
  `PlayerStats`, `SeriesStats`) with their initialisers;
- the pure helpers of the poker screen (Views/PokerGameView.swift): the blind
  seats from the dealer button, the street before a street, which board slots
  show a card, the pot figure, the amount to call, the call button's amount,
  when the all-in button is offered, and which raise chips are shown.

Layout:

| file | module | contents |
|---|---|---|
| `swift_int.dfy` | `SwiftInt` | Swift's truncating `/` and `%` on `Int` |
| `player.dfy` | `Player` | the seat records and their initialisers |
| `poker_table.dfy` | `PokerTable` | the poker screen's helpers and what they guarantee |
| `blackjack_rules.dfy` | `BlackjackRules` | the game's state as a value (`GameState`), one transition function per method, the bookkeeping invariant `Inv` |
| `blackjack_game.dfy` | `BlackjackEngine` | the `BlackjackGame` class; each method performs the Swift assignments and is proved to produce the transition function's state |
| `blackjack_runs.dfy` | `BlackjackRuns` | sequences of calls (`Action`, `Run`) and what holds along them, plus the behaviours listed below. Besides the method calls, an `Action` can be a write of the public `autoRebet` property, which code outside the class may set directly |

The class keeps the Swift properties in one field, `state: GameState`. Its
components group them the way BlackjackGame.swift's own comments do: the
session flags, the wager, box 1 and box 2, the split bookkeeping of each box,
the multiplayer table, the statistics and the streak. So `state.box1.bet` is
`bet`, `state.box2.bet` is `hand2Bet`, `state.split1.count` is `splitCount`,
`state.split2.count` is `hand2SplitCount`, and so on.

Outcome strings stay strings where the game stores them (`status`,
`hand1Result`, …). `Classify` maps them to `Win | Blackjack | Lose | Push | Other`
exactly as `updateStats`' `switch` does. `StreakType` stands for the
`streakType` string, which only ever holds `""`, `"win"`, `"lose"` or `"push"`.

Behaviours of the code as written, each proved as a lemma:

- Two-hands mode can never confirm a bet when driven by the game's own methods
  (`BlackjackRuns.TwoHandsNeverConfirms`). `placeBet` writes box 2 only when
  `activeBox != 1`, which is box 2 because the methods keep `activeBox` at 1
  or 2. Only `stand` and `surrender` move play to box 2, and `doubleDown`
  through its call to `stand`, all only while playing. But `confirmBet`, the
  only way into playing, needs both boxes to hold a bet.
- When the two-hands confirmation does happen, it debits `bet + hand2Bet`
  without checking the sum against the bankroll (`TwoHandsConfirmOverdraws`).
- With auto-rebet on, `resetRound` pre-fills the last bet whatever the bankroll.
  A restarted game with less money than that bet goes negative on its next
  confirmation (`AutoRebetOverdraws`).
- With auto-rebet left off, and with no negative starting bankroll or win
  amount passed in, a game driven by its own methods never has a negative
  bankroll (`RunStaysSolvent`, `NewGameStaysSolvent`). Switching auto-rebet
  on breaks this (`AutoRebetWriteOverdraws`).
- A multiplayer game never confirms a bet either
  (`BlackjackRuns.MultiplayerNeverConfirms`). `confirmBet` needs the active
  seat to hold a positive bet, but every seat is created without one and no
  method writes a seat's bet.
- `completeRound` has no phase guard. Calling it twice pays twice and counts
  two rounds (`CompleteRoundTwice`).
- A push after a win or loss streak takes `updateStreak`'s "broken" branch and
  leaves the streak at -1 of type push (`PushBreaksStreakToMinusOne`).
- In two-hands mode, `split` on box 2 checks box 1's `splitCount` against the
  cap of three, not box 2's own. `Split` states this, and `SplitCapHolds` shows
  the cap does hold for box 1.
- Every split slot in use holds the bet box 1 had when it was split, and while
  box 1 is played that is still its bet, so the bet and the split slots add up
  to the bet once per hand (`SplitHandsStakeTheBet`). `split` fills the slots
  but nothing sums them, and a double-down after a split doubles box 1's bet
  and not the slots; it also ends play (`DoubleAfterSplitEndsPlay`).
- `resetRound` leaves the phase, the bet history and the bankroll as they were.
  `ResetRound` states this.

## Model

| member | source | states |
|---|---|---|
| SwiftInt.Quot | chipsim-ios/ChipSim/ChipSim/Models/BlackjackGame.swift:349 | Swift's `/` by a positive divisor agrees with Euclidean division on non-negative dividends |
| SwiftInt.Rem | chipsim-ios/ChipSim/ChipSim/Views/PokerGameView.swift:249 | Swift's `%` by a positive divisor: in `[0, b)` for a non-negative dividend, in `(-b, 0]` for a negative one |
| SwiftInt.QuotOdd | chipsim-ios/ChipSim/ChipSim/Models/BlackjackGame.swift:349 | truncating division rounds toward zero: `Quot(-a, b) == -Quot(a, b)` |
| SwiftInt.QuotRem | chipsim-ios/ChipSim/ChipSim/Views/PokerGameView.swift:249 | quotient and remainder reassemble the dividend |
| Player.NewPlayerStats | chipsim-ios/ChipSim/ChipSim/Models/Player.swift:99-111 | every statistic starts at zero |
| Player.NewPokerPlayer | chipsim-ios/ChipSim/ChipSim/Models/Player.swift:23-34 | the seat keeps its name; bankroll and buy-in are the starting amount; nothing bet, no action, cleared statistics |
| Player.NewBlackjackPlayer | chipsim-ios/ChipSim/ChipSim/Models/Player.swift:67-95 | name and bankroll as given; no split, on hand 1; the round is cleared; the split bookkeeping is consistent; cleared statistics |
| Player.NewSeriesStats | chipsim-ios/ChipSim/ChipSim/Models/Player.swift:114-119 | no series or hands won or lost |
| PokerTable.SBIndex | chipsim-ios/ChipSim/ChipSim/Views/PokerGameView.swift:244-250 | small blind: 0 below two seats, the dealer heads-up, otherwise the seat after the dealer |
| PokerTable.BBIndex | chipsim-ios/ChipSim/ChipSim/Views/PokerGameView.swift:252-258 | big blind: 1 below two seats, the seat after the dealer heads-up, otherwise two after |
| PokerTable.BlindsOnDistinctSeats | chipsim-ios/ChipSim/ChipSim/Views/PokerGameView.swift:244-258 | with two or more seats and the button on a seat, both blinds are real, distinct seats and the big blind follows the small blind |
| PokerTable.DealerAndBlinds | chipsim-ios/ChipSim/ChipSim/Views/PokerGameView.swift:244-258 | heads-up the dealer posts the small blind; with three or more seats the dealer posts neither |
| PokerTable.ShortTableBlinds | chipsim-ios/ChipSim/ChipSim/Views/PokerGameView.swift:245-253 | below two seats the big-blind index names no seat |
| PokerTable.StreetPosition | chipsim-ios/ChipSim/ChipSim/Views/PokerGameView.swift:237-238 | the first index of the street in the street order |
| PokerTable.StreetBefore | chipsim-ios/ChipSim/ChipSim/Views/PokerGameView.swift:236-242 | preflop for preflop, otherwise the street one place earlier in the order |
| PokerTable.StreetBeforeTable | chipsim-ios/ChipSim/ChipSim/Views/PokerGameView.swift:236-242 | flop, turn and river step back to preflop, flop and turn |
| PokerTable.StreetCards | chipsim-ios/ChipSim/ChipSim/Views/PokerGameView.swift:231 | at most five board cards, none exactly at preflop |
| PokerTable.StreetCardsTable | chipsim-ios/ChipSim/ChipSim/Views/PokerGameView.swift:231 | the counts are 0, 3, 4, 5 and strictly increase along the street order |
| PokerTable.RevealedCount | chipsim-ios/ChipSim/ChipSim/Views/PokerGameView.swift:232 | 0 or 3 to 5 cards; the street's count once the burn is acknowledged, fewer while it is pending after preflop |
| PokerTable.CardSlotDealt | chipsim-ios/ChipSim/ChipSim/Views/PokerGameView.swift:230-234 | with the burn acknowledged a slot shows a card exactly when its index is below the street's board count; with the burn pending, below the previous street's count |
| PokerTable.DealtSlotsArePrefix | chipsim-ios/ChipSim/ChipSim/Views/PokerGameView.swift:230-234 | the face-up slots form a prefix of the board, and slot 5 is never up |
| PokerTable.BurnGateShowsPreviousStreet | chipsim-ios/ChipSim/ChipSim/Views/PokerGameView.swift:231-233 | a pending burn shows exactly the previous street's board, never more than the settled count |
| PokerTable.ToCall | chipsim-ios/ChipSim/ChipSim/Views/PokerGameView.swift:373 | never negative; zero exactly when the seat's bet already matches; otherwise what brings the seat up to the table bet |
| PokerTable.CallAmount | chipsim-ios/ChipSim/ChipSim/Views/PokerGameView.swift:401 | what is owed or the bankroll, whichever is smaller |
| PokerTable.ShortCallIsAllIn | chipsim-ios/ChipSim/ChipSim/Views/PokerGameView.swift:373-401 | a call offered for less than is owed is the whole bankroll |
| PokerTable.DisplayedPot | chipsim-ios/ChipSim/ChipSim/Views/PokerGameView.swift:123 | with no negative seat bet, the shown pot is at least the settled pot |
| PokerTable.BetsNonNegative | chipsim-ios/ChipSim/ChipSim/Views/PokerGameView.swift:123 | bets that are all non-negative add up to a non-negative amount |
| PokerTable.SumBetsAppend | chipsim-ios/ChipSim/ChipSim/Views/PokerGameView.swift:123 | the fold over two runs of seats is the sum of the folds |
| PokerTable.DisplayedPotTracksSeatBet | chipsim-ios/ChipSim/ChipSim/Views/PokerGameView.swift:123 | changing one seat's bet moves the shown pot by exactly the difference |
| PokerTable.RaiseChips | chipsim-ios/ChipSim/ChipSim/Views/PokerGameView.swift:433-442 | a prefix of the suggested raises, at most six; none unless the bankroll exceeds what is owed; otherwise all of them up to six |
| PokerTable.RaiseChipsBesideAllIn | chipsim-ios/ChipSim/ChipSim/Views/PokerGameView.swift:420-442 | whenever raise chips are shown the all-in button is too; a seat without chips is offered neither |
| BlackjackRules.FreshStatistics | chipsim-ios/ChipSim/ChipSim/Models/BlackjackGame.swift:97 | new statistics are consistent, with nothing played or won |
| BlackjackRules.Initial | chipsim-ios/ChipSim/ChipSim/Models/BlackjackGame.swift:26-103 | a new game keeps the invariant: in setup, not started, no bankroll, history or seats, single mode, no auto-rebet, fresh statistics, no streak |
| BlackjackRules.SeatsFor | chipsim-ios/ChipSim/ChipSim/Models/BlackjackGame.swift:116 | one new seat per name, in order, each with that name and the starting bankroll |
| BlackjackRules.ClearedBox | chipsim-ios/ChipSim/ChipSim/Models/BlackjackGame.swift:125-168 | a box with no status, double-down, surrender or completion, holding the given bet and keeping its win amount |
| BlackjackRules.ClearedSplit | chipsim-ios/ChipSim/ChipSim/Models/BlackjackGame.swift:136-163 | no split, hand 1 active, no split bets or results; the original bet is kept |
| BlackjackRules.ResetRound | chipsim-ios/ChipSim/ChipSim/Models/BlackjackGame.swift:125-168 | the round is cleared, the session (phase, bankroll, history, statistics, streak) is unchanged, and box 1 holds the last bet exactly when auto-rebet is on and there was one |
| BlackjackRules.Started | chipsim-ios/ChipSim/ChipSim/Models/BlackjackGame.swift:107-120 | the mode, bankroll and betting phase are set, round 0; multiplayer seats one player per name; two-hands mode is switched on but never off; the boxes, active box, split books, results, confirmation, dealing and insurance fields, last bet, auto-rebet, history, statistics and streak are left as they were |
| BlackjackRules.StartGame | chipsim-ios/ChipSim/ChipSim/Models/BlackjackGame.swift:107-123 | a started game in betting with the starting bankroll and round 0, a cleared round with the auto-rebet prefill; last bet, auto-rebet, history, statistics and streak carried over; two-hands mode switched on for a two-hands game and otherwise kept; outside multiplayer the seats, multiplayer flag and index kept; every other field as `resetRound` leaves the started state |
| BlackjackRules.PlaceBet | chipsim-ios/ChipSim/ChipSim/Models/BlackjackGame.swift:172-188 | refused outside betting or for an amount not in `1..bankroll`; otherwise the selected box's bet becomes the amount, the amount is appended to the history, and nothing else changes |
| BlackjackRules.SeatPays | chipsim-ios/ChipSim/ChipSim/Models/BlackjackGame.swift:200 | the active seat's bankroll is debited by its bet and no other seat changes |
| BlackjackRules.ConfirmBet | chipsim-ios/ChipSim/ChipSim/Models/BlackjackGame.swift:190-212 | refused unless the mode's guard holds; otherwise the mode's debit is taken, the last bet recorded, the bet confirmed and play begins, nothing else changing |
| BlackjackRules.UndoBet | chipsim-ios/ChipSim/ChipSim/Models/BlackjackGame.swift:214-229 | refused outside betting or with no history; otherwise the last history entry is removed and taken off the selected box's bet, floored at zero |
| BlackjackRules.Stand | chipsim-ios/ChipSim/ChipSim/Models/BlackjackGame.swift:240-263 | only while playing. Outside two-hands mode the dealer's turn begins. In two-hands mode the active box completes; if the other box is still open play stays in the playing phase and moves to it (box 1 to box 2, or back from box 2 to box 1), otherwise the dealer's turn begins; nothing else changes |
| BlackjackRules.Doubled | chipsim-ios/ChipSim/ChipSim/Models/BlackjackGame.swift:265-284 | the selected box's bet doubles and is marked doubled, the bankroll pays the extra stake, the phase is untouched |
| BlackjackRules.DoubleDown | chipsim-ios/ChipSim/ChipSim/Models/BlackjackGame.swift:265-289 | refused unless playing with the stake covered; otherwise the bankroll pays the current bet again, the selected box's bet doubles and is flagged, the other box's bet and flag are kept, and the phase, active box and completion flags are those `stand` gives; nothing else changes; a non-negative bankroll stays non-negative |
| BlackjackRules.SplitOnce | chipsim-ios/ChipSim/ChipSim/Models/BlackjackGame.swift:303-314 | one more split, the new hand active, the amount in the slot of this split; consistent bookkeeping stays consistent |
| BlackjackRules.Split | chipsim-ios/ChipSim/ChipSim/Models/BlackjackGame.swift:291-339 | refused unless playing with the stake covered and box 1's split count below three (for either box); otherwise the selected box's bet is paid again into its next split slot |
| BlackjackRules.Surrender | chipsim-ios/ChipSim/ChipSim/Models/BlackjackGame.swift:341-371 | only while playing: the selected box is surrendered, half its bet (truncating) is refunded, and play moves on as `stand` would |
| BlackjackRules.TakeInsurance | chipsim-ios/ChipSim/ChipSim/Models/BlackjackGame.swift:373-383 | refused when already insured, outside play or when half the selected bet is not covered; otherwise that premium is paid and recorded; the phase never changes |
| BlackjackRules.Classify | chipsim-ios/ChipSim/ChipSim/Models/BlackjackGame.swift:419-436 | each outcome class is chosen exactly by its string |
| BlackjackRules.Label | chipsim-ios/ChipSim/ChipSim/Models/BlackjackGame.swift:419-436 | the canonical string of a class classifies back to that class |
| BlackjackRules.StreakAfter | chipsim-ios/ChipSim/ChipSim/Models/BlackjackGame.swift:440-452 | the type becomes the new type; a continued streak counts up for a win, down for a loss and holds for a push; a broken one restarts at 1 for a win and -1 otherwise; consistency is kept |
| BlackjackRules.StreakTypeOf | chipsim-ios/ChipSim/ChipSim/Models/BlackjackGame.swift:419-436 | wins and blackjacks give a win streak, losses a lose streak, unrecognised outcomes none |
| BlackjackRules.RecordOutcome | chipsim-ios/ChipSim/ChipSim/Models/BlackjackGame.swift:416-438 | one more hand played; per class, the matching counter and money total move, the biggest win is the maximum; unrecognised outcomes change nothing else; consistency is kept |
| BlackjackRules.StreakAfterOutcome | chipsim-ios/ChipSim/ChipSim/Models/BlackjackGame.swift:416-438 | unrecognised outcomes leave the streak; others step it by the outcome's type; consistency is kept |
| BlackjackRules.UpdateStats | chipsim-ios/ChipSim/ChipSim/Models/BlackjackGame.swift:416-438 | only the statistics and the streak change, as above |
| BlackjackRules.Settled | chipsim-ios/ChipSim/ChipSim/Models/BlackjackGame.swift:387-403 | result phase, bankroll plus the win amount, the outcome stored on the selected box, statistics untouched |
| BlackjackRules.CompleteRound | chipsim-ios/ChipSim/ChipSim/Models/BlackjackGame.swift:387-414 | result phase, bankroll plus the win amount, one more round, statistics and streak updated for the outcome; the outcome and win amount recorded on box 1 or box 2 in two-hands mode and the outcome as box 1's status otherwise, the other box untouched; nothing else changes |
| BlackjackRules.ResetGame | chipsim-ios/ChipSim/ChipSim/Models/BlackjackGame.swift:459-469 | back in setup, not started, round 0, no bankroll, bet or last bet, fresh statistics, the round cleared; streak, history, mode, auto-rebet, two-hands and multiplayer flags, seats, active seat, win amounts and original split bets kept |
| BlackjackEngine.BlackjackGame.constructor | chipsim-ios/ChipSim/ChipSim/Models/BlackjackGame.swift:26-103 | the object starts in the initial state |
| BlackjackEngine.BlackjackGame.StartGame | chipsim-ios/ChipSim/ChipSim/Models/BlackjackGame.swift:107-123 | the new state is `StartGame` of the old |
| BlackjackEngine.BlackjackGame.ResetRound | chipsim-ios/ChipSim/ChipSim/Models/BlackjackGame.swift:125-168 | the new state is `ResetRound` of the old |
| BlackjackEngine.BlackjackGame.PlaceBet | chipsim-ios/ChipSim/ChipSim/Models/BlackjackGame.swift:172-188 | the new state is `PlaceBet` of the old |
| BlackjackEngine.BlackjackGame.ConfirmBet | chipsim-ios/ChipSim/ChipSim/Models/BlackjackGame.swift:190-212 | the new state is `ConfirmBet` of the old |
| BlackjackEngine.BlackjackGame.UndoBet | chipsim-ios/ChipSim/ChipSim/Models/BlackjackGame.swift:214-229 | the new state is `UndoBet` of the old |
| BlackjackEngine.BlackjackGame.Hit | chipsim-ios/ChipSim/ChipSim/Models/BlackjackGame.swift:233-238 | the state is unchanged |
| BlackjackEngine.BlackjackGame.Stand | chipsim-ios/ChipSim/ChipSim/Models/BlackjackGame.swift:240-263 | the new state is `Stand` of the old |
| BlackjackEngine.BlackjackGame.DoubleDown | chipsim-ios/ChipSim/ChipSim/Models/BlackjackGame.swift:265-289 | the new state is `DoubleDown` of the old |
| BlackjackEngine.BlackjackGame.Split | chipsim-ios/ChipSim/ChipSim/Models/BlackjackGame.swift:291-339 | the new state is `Split` of the old |
| BlackjackEngine.BlackjackGame.Surrender | chipsim-ios/ChipSim/ChipSim/Models/BlackjackGame.swift:341-371 | the new state is `Surrender` of the old |
| BlackjackEngine.BlackjackGame.TakeInsurance | chipsim-ios/ChipSim/ChipSim/Models/BlackjackGame.swift:373-383 | the new state is `TakeInsurance` of the old |
| BlackjackEngine.BlackjackGame.CompleteRound | chipsim-ios/ChipSim/ChipSim/Models/BlackjackGame.swift:387-414 | the new state is `CompleteRound` of the old, and the result says whether the streak celebration sounded |
| BlackjackEngine.BlackjackGame.UpdateStats | chipsim-ios/ChipSim/ChipSim/Models/BlackjackGame.swift:416-438 | the new state is `UpdateStats` of the old, and the result says whether the celebration sounded |
| BlackjackEngine.BlackjackGame.UpdateStreak | chipsim-ios/ChipSim/ChipSim/Models/BlackjackGame.swift:440-457 | only the streak changes, to `StreakAfter`; the result is the celebration condition: three or more either way, not for a push |
| BlackjackEngine.BlackjackGame.ResetGame | chipsim-ios/ChipSim/ChipSim/Models/BlackjackGame.swift:459-469 | the new state is `ResetGame` of the old |
| BlackjackEngine.PlayDoubledWin | chipsim-ios/ChipSim/ChipSim/Models/BlackjackGame.swift:107-414 | on a new object: 1000 chips, a bet of 100 doubled and won for 400 leaves 1200, one win and a one-win streak |
| BlackjackRuns.StartGameKeepsInv | chipsim-ios/ChipSim/ChipSim/Models/BlackjackGame.swift:107-123 | `startGame` keeps the bookkeeping invariant |
| BlackjackRuns.ResetRoundKeepsInv | chipsim-ios/ChipSim/ChipSim/Models/BlackjackGame.swift:125-168 | `resetRound` keeps the invariant |
| BlackjackRuns.PlaceBetKeepsInv | chipsim-ios/ChipSim/ChipSim/Models/BlackjackGame.swift:172-188 | `placeBet` keeps the invariant (the history holds only positive amounts) |
| BlackjackRuns.ConfirmBetKeepsInv | chipsim-ios/ChipSim/ChipSim/Models/BlackjackGame.swift:190-212 | `confirmBet` keeps the invariant |
| BlackjackRuns.UndoBetKeepsInv | chipsim-ios/ChipSim/ChipSim/Models/BlackjackGame.swift:214-229 | `undoBet` keeps the invariant |
| BlackjackRuns.StandKeepsInv | chipsim-ios/ChipSim/ChipSim/Models/BlackjackGame.swift:240-263 | `stand` keeps the invariant |
| BlackjackRuns.DoubleDownKeepsInv | chipsim-ios/ChipSim/ChipSim/Models/BlackjackGame.swift:265-289 | `doubleDown` keeps the invariant |
| BlackjackRuns.SplitKeepsInv | chipsim-ios/ChipSim/ChipSim/Models/BlackjackGame.swift:291-339 | `split` keeps the invariant: at most three splits on box 1, consistent split slots on both boxes (box 2's count is not capped, since the guard reads box 1's) |
| BlackjackRuns.SurrenderKeepsInv | chipsim-ios/ChipSim/ChipSim/Models/BlackjackGame.swift:341-371 | `surrender` keeps the invariant |
| BlackjackRuns.TakeInsuranceKeepsInv | chipsim-ios/ChipSim/ChipSim/Models/BlackjackGame.swift:373-383 | `takeInsurance` keeps the invariant |
| BlackjackRuns.CompleteRoundKeepsInv | chipsim-ios/ChipSim/ChipSim/Models/BlackjackGame.swift:387-414 | `completeRound` keeps the invariant (statistics and streak consistent) |
| BlackjackRuns.ResetGameKeepsInv | chipsim-ios/ChipSim/ChipSim/Models/BlackjackGame.swift:459-469 | `resetGame` keeps the invariant |
| BlackjackRuns.StepKeepsInv | chipsim-ios/ChipSim/ChipSim/Models/BlackjackGame.swift:107-469 | every public call keeps the invariant |
| BlackjackRuns.RunKeepsInv | chipsim-ios/ChipSim/ChipSim/Models/BlackjackGame.swift:107-469 | every sequence of public calls keeps the invariant |
| BlackjackRuns.SplitCapHolds | chipsim-ios/ChipSim/ChipSim/Models/BlackjackGame.swift:291-302 | from a new game box 1 splits at most three times and is on at most its fourth hand, with statistics and streak consistent |
| BlackjackRuns.StepKeepsMethodReachable | chipsim-ios/ChipSim/ChipSim/Models/BlackjackGame.swift:172-263 | every call keeps box 1 active in betting, box 2 without a bet, and a two-hands game out of play |
| BlackjackRuns.RunKeepsMethodReachable | chipsim-ios/ChipSim/ChipSim/Models/BlackjackGame.swift:172-263 | the same along any sequence of calls |
| BlackjackRuns.TwoHandsNeverConfirms | chipsim-ios/ChipSim/ChipSim/Models/BlackjackGame.swift:190-196 | from a new game, no sequence of calls reaches a two-hands game in play |
| BlackjackRuns.StepKeepsSplitSlots | chipsim-ios/ChipSim/ChipSim/Models/BlackjackGame.swift:107-469 | from a state the methods can reach, every call keeps each used split slot equal to the original bet, that bet equal to box 1's bet while playing, and no split counted in setup or betting |
| BlackjackRuns.RunKeepsSplitSlots | chipsim-ios/ChipSim/ChipSim/Models/BlackjackGame.swift:107-469 | the same, together with reachability, along any sequence of calls |
| BlackjackRuns.SplitHandsStakeTheBet | chipsim-ios/ChipSim/ChipSim/Models/BlackjackGame.swift:291-339 | from a new game, while playing, box 1's split hands all carry its bet: the bet plus the three slots is the bet times the number of hands |
| BlackjackRuns.DoubleAfterSplitEndsPlay | chipsim-ios/ChipSim/ChipSim/Models/BlackjackGame.swift:265-288 | a single-mode double-down after one split moves to the dealer, keeps the split slot, and leaves box 1 holding twice the slot |
| BlackjackRuns.StepKeepsSeatsUnbet | chipsim-ios/ChipSim/ChipSim/Models/BlackjackGame.swift:107-469 | no call gives any multiplayer seat a bet |
| BlackjackRuns.RunKeepsSeatsUnbet | chipsim-ios/ChipSim/ChipSim/Models/BlackjackGame.swift:107-469 | the same along any sequence of calls |
| BlackjackRuns.MultiplayerNeverConfirms | chipsim-ios/ChipSim/ChipSim/Models/BlackjackGame.swift:196-200 | from a new game, a multiplayer game's `confirmBet` is always refused and changes nothing |
| BlackjackRuns.StepKeepsSolvent | chipsim-ios/ChipSim/ChipSim/Models/BlackjackGame.swift:172-414 | from a state the methods can reach, with auto-rebet off, an honest call (no negative starting bankroll or win, no switching auto-rebet on) keeps the bankroll non-negative and covering the bet while betting |
| BlackjackRuns.RunStaysSolvent | chipsim-ios/ChipSim/ChipSim/Models/BlackjackGame.swift:172-414 | the same along any sequence of honest calls |
| BlackjackRuns.NewGameStaysSolvent | chipsim-ios/ChipSim/ChipSim/Models/BlackjackGame.swift:107-469 | from a new game, honest calls, which never switch auto-rebet on, never make the bankroll negative |
| BlackjackRuns.AutoRebetOverdraws | chipsim-ios/ChipSim/ChipSim/Models/BlackjackGame.swift:165-167 | with auto-rebet, restarting with less than the last bet and confirming leaves the bankroll negative |
| BlackjackRuns.AutoRebetWriteOverdraws | chipsim-ios/ChipSim/ChipSim/Models/BlackjackGame.swift:37 | switching auto-rebet on, restarting with less than the last bet and confirming leaves the bankroll negative, so honest calls must exclude that write |
| BlackjackRuns.TwoHandsConfirmOverdraws | chipsim-ios/ChipSim/ChipSim/Models/BlackjackGame.swift:193-195 | two individually covered bets that together exceed the bankroll overdraw it on confirmation |
| BlackjackRuns.SingleBetConfirmed | chipsim-ios/ChipSim/ChipSim/Models/BlackjackGame.swift:172-212 | in single mode a placed and confirmed bet debits exactly the bet and starts play |
| BlackjackRuns.SingleDoubleThenComplete | chipsim-ios/ChipSim/ChipSim/Models/BlackjackGame.swift:265-414 | in single mode a double down then completion takes the bet again and pays the win amount |
| BlackjackRuns.SingleStarted | chipsim-ios/ChipSim/ChipSim/Models/BlackjackGame.swift:107-123 | a single-mode start without auto-rebet has no bet and keeps statistics and streak |
| BlackjackRuns.DoubleDownWin | chipsim-ios/ChipSim/ChipSim/Models/BlackjackGame.swift:107-414 | start with 1000, bet 100, double and win 400: bankroll 1200, bet 200, one win, result phase, round 1, a one-win streak |
| BlackjackRuns.UndoAfterPlaceClearsBet | chipsim-ios/ChipSim/ChipSim/Models/BlackjackGame.swift:172-229 | undo right after a bet leaves the box empty and the history as it was |
| BlackjackRuns.ResetRoundIdempotent | chipsim-ios/ChipSim/ChipSim/Models/BlackjackGame.swift:125-168 | resetting a round twice is resetting it once |
| BlackjackRuns.CompleteRoundTwice | chipsim-ios/ChipSim/ChipSim/Models/BlackjackGame.swift:387-414 | completing the same round twice pays twice and counts two rounds and two hands |
| BlackjackRuns.PushBreaksStreakToMinusOne | chipsim-ios/ChipSim/ChipSim/Models/BlackjackGame.swift:449-452 | a push after a win or lose streak leaves -1 of type push |
| BlackjackRuns.CelebrationNeedsRunningStreak | chipsim-ios/ChipSim/ChipSim/Models/BlackjackGame.swift:440-457 | a celebration needs a streak of the same type already at two or more |
| BlackjackRuns.Repeated | chipsim-ios/ChipSim/ChipSim/Models/BlackjackGame.swift:440-452 | after `k` outcomes of one type the streak has that type |
| BlackjackRuns.RepeatedFromNoStreak | chipsim-ios/ChipSim/ChipSim/Models/BlackjackGame.swift:440-452 | from no streak, `k` wins give `k`, `k` losses give `-k`, `k` pushes give 0 |
| BlackjackRuns.CelebratesFromThird | chipsim-ios/ChipSim/ChipSim/Models/BlackjackGame.swift:454-456 | from no streak, the celebration sounds from the third win or loss in a row on, not before |
| BlackjackRuns.RecordAllCounts | chipsim-ios/ChipSim/ChipSim/Models/BlackjackGame.swift:416-438 | over a series of outcomes, hands played grow by the series' length and wins by its number of "win" and "blackjack" outcomes |

## Left out

- Sound effects (`AudioService`): not modelled. `updateStreak` reports its celebration as a result instead.
- `save()` (BlackjackGame.swift:473-479) and its calls: persistence to local storage and Firebase is I/O.
- The delayed `resetRound` that `completeRound` schedules with auto-rebet on (BlackjackGame.swift:408-412): it runs on the main queue after two seconds. The model leaves that clock out, so a caller calls `ResetRound` itself.
- Card dealing in `hit`: the source has none, only a guard and a sound, so `Hit` changes nothing.
- Seat identities: the fresh `UUID` of every `PokerPlayer` and `BlackjackPlayer`.
- `split1DD`…`split4DD`, `hand2Split1DD`…`hand2Split4DD` and `leaderboard`: no modelled method writes them. They stay at their defaults and are not part of `GameState`.
- `BlackjackStatistics` is declared outside the modelled files. Its fields are the ones `updateStats` uses, each starting at 0.
- The poker engine (`PokerGame`: dealing, the betting round, `getValidRaises`, `allIn`) is not part of this model. Its results are inputs to the `PokerTable` helpers.
- `PokerStreet` is declared outside the modelled files. `Street` assumes its four cases, preflop, flop, turn and river, so `StreetCards` never takes the `?? 0` fallback of the `streetCards` table.
- SwiftUI layout, navigation and orientation locking in both views.
- `activePlayerIndex` is a `nat` where Swift has `Int`: the class only ever assigns it 0, and the model does not capture a negative index written from outside the class.
- Swift's `Int` overflow: integers are unbounded. No modelled amount comes near 2^63.
- BlackjackEngine.BlackjackGame methods: they state the new state as the transition function's result but do not restate the invariant. `Inv` is proved for the transition functions (`BlackjackRuns.StepKeepsInv`, `RunKeepsInv`), so it carries over to the object.
