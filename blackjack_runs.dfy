/** Sequences of calls on a blackjack game, and what holds along them: the
    bookkeeping invariant, the solvency of the bankroll, the state a two-hands
    game can reach, and the streak and statistics after a series of outcomes. */
module BlackjackRuns {
  import opened BlackjackRules

  /** A call of one of the game's public methods, with its arguments, or a
      write of the public `autoRebet` property, which code outside the class may
      set and no method of the game writes. */
  datatype Action =
    | StartGameCall(mode: Mode, startingBankroll: int, names: seq<string>)
    | ResetRoundCall
    | PlaceBetCall(amount: int)
    | ConfirmBetCall
    | UndoBetCall
    | HitCall
    | StandCall
    | DoubleDownCall
    | SplitCall
    | SurrenderCall
    | TakeInsuranceCall
    | CompleteRoundCall(outcome: string, winAmount: int)
    | ResetGameCall
    | AutoRebetWrite(on: bool)

  /** The state after one call. */
  function Step(s: GameState, a: Action): GameState {
    match a
    case StartGameCall(m, b, names) => StartGame(s, m, b, names)
    case ResetRoundCall => ResetRound(s)
    case PlaceBetCall(amount) => PlaceBet(s, amount)
    case ConfirmBetCall => ConfirmBet(s)
    case UndoBetCall => UndoBet(s)
    case HitCall => Hit(s)
    case StandCall => Stand(s)
    case DoubleDownCall => DoubleDown(s)
    case SplitCall => Split(s)
    case SurrenderCall => Surrender(s)
    case TakeInsuranceCall => TakeInsurance(s)
    case CompleteRoundCall(o, w) => CompleteRound(s, o, w)
    case ResetGameCall => ResetGame(s)
    case AutoRebetWrite(on) => s.(wager := s.wager.(autoRebet := on))
  }

  /** The state after a sequence of calls, first call first. */
  function Run(s: GameState, actions: seq<Action>): GameState
    decreases |actions|
  {
    if actions == [] then s else Run(Step(s, actions[0]), actions[1..])
  }

  // ---------------------------------------------------------------------------
  // The bookkeeping invariant

  // One lemma per public method: each keeps `Inv`, so every method of the game
  // class, whose new state is the transition's result, keeps it too.

  lemma StartGameKeepsInv(s: GameState, m: Mode, b: int, names: seq<string>)
    requires Inv(s)
    ensures Inv(StartGame(s, m, b, names))
  {
  }

  lemma ResetRoundKeepsInv(s: GameState)
    requires Inv(s)
    ensures Inv(ResetRound(s))
  {
  }

  lemma PlaceBetKeepsInv(s: GameState, amount: int)
    requires Inv(s)
    ensures Inv(PlaceBet(s, amount))
  {
  }

  lemma ConfirmBetKeepsInv(s: GameState)
    requires Inv(s)
    ensures Inv(ConfirmBet(s))
  {
  }

  lemma UndoBetKeepsInv(s: GameState)
    requires Inv(s)
    ensures Inv(UndoBet(s))
  {
  }

  lemma StandKeepsInv(s: GameState)
    requires Inv(s)
    ensures Inv(Stand(s))
  {
  }

  lemma DoubleDownKeepsInv(s: GameState)
    requires Inv(s)
    ensures Inv(DoubleDown(s))
  {
  }

  lemma SplitKeepsInv(s: GameState)
    requires Inv(s)
    ensures Inv(Split(s))
  {
  }

  lemma SurrenderKeepsInv(s: GameState)
    requires Inv(s)
    ensures Inv(Surrender(s))
  {
  }

  lemma TakeInsuranceKeepsInv(s: GameState)
    requires Inv(s)
    ensures Inv(TakeInsurance(s))
  {
  }

  lemma CompleteRoundKeepsInv(s: GameState, o: string, w: int)
    requires Inv(s)
    ensures Inv(CompleteRound(s, o, w))
  {
  }

  lemma ResetGameKeepsInv(s: GameState)
    requires Inv(s)
    ensures Inv(ResetGame(s))
  {
  }

  /** Every call keeps the bookkeeping invariant. */
  lemma StepKeepsInv(s: GameState, a: Action)
    requires Inv(s)
    ensures Inv(Step(s, a))
  {
    match a
    case StartGameCall(m, b, names) => StartGameKeepsInv(s, m, b, names);
    case ResetRoundCall => ResetRoundKeepsInv(s);
    case PlaceBetCall(amount) => PlaceBetKeepsInv(s, amount);
    case ConfirmBetCall => ConfirmBetKeepsInv(s);
    case UndoBetCall => UndoBetKeepsInv(s);
    case StandCall => StandKeepsInv(s);
    case DoubleDownCall => DoubleDownKeepsInv(s);
    case SplitCall => SplitKeepsInv(s);
    case SurrenderCall => SurrenderKeepsInv(s);
    case TakeInsuranceCall => TakeInsuranceKeepsInv(s);
    case CompleteRoundCall(o, w) => CompleteRoundKeepsInv(s, o, w);
    case ResetGameCall => ResetGameKeepsInv(s);
    case HitCall =>
    case AutoRebetWrite(_) =>
  }

  /** Any sequence of calls keeps the bookkeeping invariant. */
  lemma {:induction false} RunKeepsInv(s: GameState, actions: seq<Action>)
    requires Inv(s)
    ensures Inv(Run(s, actions))
    decreases |actions|
  {
    if actions != [] {
      StepKeepsInv(s, actions[0]);
      RunKeepsInv(Step(s, actions[0]), actions[1..]);
    }
  }

  /** From a new game, box 1 splits at most three times, so its active hand is
      at most the fourth, and the statistics and streak stay consistent. */
  lemma SplitCapHolds(actions: seq<Action>)
    ensures var t := Run(Initial(), actions);
            0 <= t.split1.count <= 3 && 1 <= t.split1.activeHand <= 4 &&
            StatsConsistent(t.stats) && StreakConsistent(t.streak)
  {
    RunKeepsInv(Initial(), actions);
  }

  // ---------------------------------------------------------------------------
  // What the methods alone can reach

  /** The states the game's own methods can reach from a new game: the
      invariant holds, box 1 stays active, box 2 never holds a bet, and a
      two-hands game never gets to the playing or dealer phase. */
  ghost predicate MethodReachable(s: GameState) {
    Inv(s) && s.activeBox == 1 && s.box2.bet == 0 &&
    (s.mode == TwoHands ==> s.phase != Playing && s.phase != Dealer)
  }

  /** Every call keeps the game among the states its methods can reach. */
  lemma StepKeepsMethodReachable(s: GameState, a: Action)
    requires MethodReachable(s)
    ensures MethodReachable(Step(s, a))
  {
    StepKeepsInv(s, a);
  }

  /** So does every sequence of calls. */
  lemma {:induction false} RunKeepsMethodReachable(s: GameState, actions: seq<Action>)
    requires MethodReachable(s)
    ensures MethodReachable(Run(s, actions))
    decreases |actions|
  {
    if actions != [] {
      StepKeepsMethodReachable(s, actions[0]);
      RunKeepsMethodReachable(Step(s, actions[0]), actions[1..]);
    }
  }

  /** `placeBet` never writes box 2 (the active box is 1 whenever bets are
      placed), so in two-hands mode `confirmBet`'s guard `bet > 0 && hand2Bet > 0`
      never holds: a two-hands game started and driven by the game's own methods
      stays in betting. */
  lemma TwoHandsNeverConfirms(actions: seq<Action>)
    ensures var t := Run(Initial(), actions);
            t.mode == TwoHands ==>
              t.box2.bet == 0 && ConfirmBet(t) == t && t.phase != Playing
  {
    RunKeepsMethodReachable(Initial(), actions);
  }

  /** The slots of the splits a box has had each hold the bet it had when it
      was split, its `originalBet`. */
  predicate SlotsHoldOriginal(b: SplitBook) {
    (b.count >= 1 ==> b.slot1 == b.originalBet) &&
    (b.count >= 2 ==> b.slot2 == b.originalBet) &&
    (b.count >= 3 ==> b.slot3 == b.originalBet)
  }

  /** The split bookkeeping the methods keep: every slot in use holds the
      original bet, which while playing is still box 1's bet, and no box has
      split before the bet is confirmed. */
  ghost predicate SplitSlotsHoldBet(s: GameState) {
    SlotsHoldOriginal(s.split1) && SlotsHoldOriginal(s.split2) &&
    (s.phase == Playing && s.split1.count >= 1 ==> s.split1.originalBet == s.box1.bet) &&
    ((s.phase == Setup || s.phase == Betting) ==> s.split1.count == 0 && s.split2.count == 0)
  }

  /** Every call keeps the split bookkeeping, from a state the methods can
      reach: there a double-down ends play, so box 1's bet never moves away
      from the split slots while the hands are still played. */
  lemma StepKeepsSplitSlots(s: GameState, a: Action)
    requires MethodReachable(s) && SplitSlotsHoldBet(s)
    ensures SplitSlotsHoldBet(Step(s, a))
  {
  }

  /** So does every sequence of calls. */
  lemma {:induction false} RunKeepsSplitSlots(s: GameState, actions: seq<Action>)
    requires MethodReachable(s) && SplitSlotsHoldBet(s)
    ensures MethodReachable(Run(s, actions)) && SplitSlotsHoldBet(Run(s, actions))
    decreases |actions|
  {
    if actions != [] {
      StepKeepsMethodReachable(s, actions[0]);
      StepKeepsSplitSlots(s, actions[0]);
      RunKeepsSplitSlots(Step(s, actions[0]), actions[1..]);
    }
  }

  /** From a new game, while box 1 is played its split hands all carry box 1's
      bet, so together they stake the bet once per hand. */
  lemma SplitHandsStakeTheBet(actions: seq<Action>)
    ensures var t := Run(Initial(), actions);
            t.phase == Playing ==>
              (t.split1.count >= 1 ==> t.split1.originalBet == t.box1.bet) &&
              t.box1.bet + t.split1.slot1 + t.split1.slot2 + t.split1.slot3 ==
                t.box1.bet * (t.split1.count + 1)
  {
    RunKeepsSplitSlots(Initial(), actions);
  }

  /** A double-down after a split doubles box 1's bet but not the split slot,
      and ends play: the hands then no longer sum to the bet once per hand. */
  lemma DoubleAfterSplitEndsPlay(s: GameState)
    requires s.phase == Playing && s.mode == Single && s.split1.count == 1
    requires s.split1.slot1 == s.box1.bet && 0 < s.box1.bet <= s.wager.bankroll
    ensures var r := DoubleDown(s);
            r.phase == Dealer && r.split1 == s.split1 && r.box1.bet == 2 * r.split1.slot1
  {
  }

  /** No seat holds a bet: the game's methods never write a seat's `bet`, and
      `startGame` seats every player with none. */
  predicate SeatsUnbet(s: GameState) {
    forall i :: 0 <= i < |s.table.players| ==> s.table.players[i].bet == 0
  }

  /** Every call keeps every seat without a bet. */
  lemma StepKeepsSeatsUnbet(s: GameState, a: Action)
    requires SeatsUnbet(s)
    ensures SeatsUnbet(Step(s, a))
  {
  }

  /** So does every sequence of calls. */
  lemma {:induction false} RunKeepsSeatsUnbet(s: GameState, actions: seq<Action>)
    requires SeatsUnbet(s)
    ensures SeatsUnbet(Run(s, actions))
    decreases |actions|
  {
    if actions != [] {
      StepKeepsSeatsUnbet(s, actions[0]);
      RunKeepsSeatsUnbet(Step(s, actions[0]), actions[1..]);
    }
  }

  /** Multiplayer `confirmBet` needs the active seat to hold a positive bet
      that its bankroll covers; since no seat ever gets a bet, a multiplayer
      game driven by the game's own methods never confirms. */
  lemma MultiplayerNeverConfirms(actions: seq<Action>)
    ensures var t := Run(Initial(), actions);
            t.mode == Multiplayer ==> !ConfirmAccepted(t) && ConfirmBet(t) == t
  {
    RunKeepsSeatsUnbet(Initial(), actions);
  }

  // ---------------------------------------------------------------------------
  // The bankroll

  /** A bankroll that is not negative, and covers the bet while betting. */
  predicate Solvent(s: GameState) {
    s.wager.bankroll >= 0 && (s.phase == Betting ==> s.box1.bet <= s.wager.bankroll)
  }

  /** Calls that bring no money in from outside the rules and leave auto-rebet
      off: a game started with a non-negative bankroll, a round completed with a
      non-negative win, and no write switching auto-rebet on. */
  predicate HonestCall(a: Action) {
    match a
    case StartGameCall(_, b, _) => b >= 0
    case CompleteRoundCall(_, w) => w >= 0
    case AutoRebetWrite(on) => !on
    case _ => true
  }

  /** One call from a reachable, solvent state without auto-rebet stays solvent. */
  lemma StepKeepsSolvent(s: GameState, a: Action)
    requires MethodReachable(s) && Solvent(s) && !s.wager.autoRebet && HonestCall(a)
    ensures Solvent(Step(s, a)) && !Step(s, a).wager.autoRebet
  {
  }

  /** Without auto-rebet, and with no negative starting bankroll or win amount
      passed in, the bankroll never goes negative: every debit is checked
      against the bankroll, directly or through the bet `placeBet` checked. */
  lemma {:induction false} RunStaysSolvent(s: GameState, actions: seq<Action>)
    requires MethodReachable(s) && Solvent(s) && !s.wager.autoRebet
    requires forall i :: 0 <= i < |actions| ==> HonestCall(actions[i])
    ensures Solvent(Run(s, actions)) && Run(s, actions).wager.bankroll >= 0
    decreases |actions|
  {
    if actions != [] {
      StepKeepsSolvent(s, actions[0]);
      StepKeepsMethodReachable(s, actions[0]);
      RunStaysSolvent(Step(s, actions[0]), actions[1..]);
    }
  }

  /** The same bound from a new game. */
  lemma NewGameStaysSolvent(actions: seq<Action>)
    requires forall i :: 0 <= i < |actions| ==> HonestCall(actions[i])
    ensures Run(Initial(), actions).wager.bankroll >= 0
  {
    RunStaysSolvent(Initial(), actions);
  }

  /** With auto-rebet on, `resetRound` pre-fills the last confirmed bet without
      looking at the bankroll, and single-mode `confirmBet` debits it unchecked:
      a game restarted with less than the last bet goes negative on its first
      confirmation. */
  lemma AutoRebetOverdraws(s: GameState, startingBankroll: int)
    requires s.wager.autoRebet && 0 <= startingBankroll < s.wager.lastBet
    ensures var t := ConfirmBet(StartGame(s, Single, startingBankroll, []));
            t.phase == Playing && t.wager.bankroll == startingBankroll - s.wager.lastBet < 0
  {
  }

  /** The exclusion of auto-rebet from `HonestCall` is needed: switching it on
      in a game whose last bet exceeds the chips it is then restarted with
      leaves the bankroll negative once the pre-filled bet is confirmed. */
  lemma AutoRebetWriteOverdraws(s: GameState, startingBankroll: int)
    requires 0 <= startingBankroll < s.wager.lastBet
    ensures Run(s, [AutoRebetWrite(true), StartGameCall(Single, startingBankroll, []), ConfirmBetCall])
              .wager.bankroll < 0
  {
    var on := s.(wager := s.wager.(autoRebet := true));
    AutoRebetOverdraws(on, startingBankroll);
    var t := ConfirmBet(StartGame(on, Single, startingBankroll, []));
    assert Run(t, []) == t;
    assert Run(on, [StartGameCall(Single, startingBankroll, []), ConfirmBetCall]) == t by {
      assert [StartGameCall(Single, startingBankroll, []), ConfirmBetCall][1..] == [ConfirmBetCall];
      assert [ConfirmBetCall][1..] == [];
    }
    assert [AutoRebetWrite(true), StartGameCall(Single, startingBankroll, []), ConfirmBetCall][1..]
        == [StartGameCall(Single, startingBankroll, []), ConfirmBetCall];
  }

  /** In two-hands mode `confirmBet` debits both boxes without checking their sum
      against the bankroll (each was checked alone by `placeBet`), so two bets
      that together exceed the bankroll leave it negative. */
  lemma TwoHandsConfirmOverdraws(s: GameState)
    requires s.phase == Betting && s.mode == TwoHands && s.box1.bet > 0 && s.box2.bet > 0
    requires s.box1.bet <= s.wager.bankroll && s.box2.bet <= s.wager.bankroll
    requires s.box1.bet + s.box2.bet > s.wager.bankroll
    ensures ConfirmBet(s).wager.bankroll < 0 && ConfirmBet(s).phase == Playing
  {
  }

  // ---------------------------------------------------------------------------
  // A double down that wins

  /** In single mode, a bet placed and confirmed leaves the bankroll short by
      exactly the bet, with the game in play. */
  lemma SingleBetConfirmed(s: GameState, amount: int)
    requires s.mode == Single && PlaceAccepted(s, amount)
    ensures var t := ConfirmBet(PlaceBet(s, amount));
            t.mode == Single && t.phase == Playing && t.box1.bet == amount &&
            t.wager.bankroll == s.wager.bankroll - amount &&
            t.stats == s.stats && t.streak == s.streak &&
            t.session.roundNumber == s.session.roundNumber
  {
  }

  /** In single mode, a double down followed by the round's completion takes the
      bet a second time and pays the win amount. */
  lemma SingleDoubleThenComplete(s: GameState, outcome: string, winAmount: int)
    requires s.mode == Single && DoubleAccepted(s)
    ensures var t := CompleteRound(DoubleDown(s), outcome, winAmount);
            t.wager.bankroll == s.wager.bankroll - s.box1.bet + winAmount &&
            t.box1.bet == 2 * s.box1.bet &&
            t.stats == RecordOutcome(s.stats, Classify(outcome), winAmount) &&
            t.streak == StreakAfterOutcome(s.streak, outcome) &&
            t.session.roundNumber == s.session.roundNumber + 1
  {
  }

  /** A single-mode game started without auto-rebet has no bet yet and keeps
      the statistics and the streak it had. */
  lemma SingleStarted(s: GameState, bankroll: int)
    requires !s.wager.autoRebet
    ensures var t := StartGame(s, Single, bankroll, []);
            t.mode == Single && t.phase == Betting && t.box1.bet == 0 &&
            t.wager.bankroll == bankroll && t.stats == s.stats && t.streak == s.streak &&
            t.session.roundNumber == 0
  {
  }

  /** From a game with no auto-rebet, fresh statistics and no streak (a new
      game is one): start with 1000, bet 100, double down and win 400. The
      bankroll ends at 1000 - 100 - 100 + 400, one win is recorded, and the
      streak is one win long. */
  lemma DoubleDownWin(s: GameState)
    requires !s.wager.autoRebet && s.stats == FreshStatistics() && s.streak == Streak(0, NoStreak)
    ensures var t := CompleteRound(DoubleDown(ConfirmBet(PlaceBet(StartGame(s, Single, 1000, []), 100))),
                                   "win", 400);
            t.wager.bankroll == 1200 && t.box1.bet == 200 &&
            t.stats.wins == 1 && t.stats.handsPlayed == 1 &&
            t.stats.totalWon == 400 && t.stats.biggestWin == 400 && t.phase == Result &&
            t.session.roundNumber == 1 && t.streak == Streak(1, WinStreak)
  {
    SingleStarted(s, 1000);
    var s1 := StartGame(s, Single, 1000, []);
    SingleBetConfirmed(s1, 100);
    var s3 := ConfirmBet(PlaceBet(s1, 100));
    assert Classify("win") == Win;
    SingleDoubleThenComplete(s3, "win", 400);
  }

  // ---------------------------------------------------------------------------
  // Betting

  /** `undoBet` takes back the amount `placeBet` just set, so the box is left
      with no bet at all, whatever it held before the two calls, and the history
      is back where it was. */
  lemma UndoAfterPlaceClearsBet(s: GameState, amount: int)
    requires PlaceAccepted(s, amount)
    ensures SelectedBet(UndoBet(PlaceBet(s, amount))) == 0
    ensures UndoBet(PlaceBet(s, amount)).wager.betHistory == s.wager.betHistory
  {
    var p := PlaceBet(s, amount);
    assert UndoAccepted(p);
    assert p.wager.betHistory[..|p.wager.betHistory| - 1] == s.wager.betHistory;
  }

  /** A round reset twice is a round reset once. */
  lemma ResetRoundIdempotent(s: GameState)
    ensures ResetRound(ResetRound(s)) == ResetRound(s)
  {
  }

  // ---------------------------------------------------------------------------
  // Round completion

  /** `completeRound` has no phase guard: completing the same round twice pays
      twice and counts two hands and two rounds. */
  lemma CompleteRoundTwice(s: GameState, winAmount: int)
    ensures var t := CompleteRound(CompleteRound(s, "win", winAmount), "win", winAmount);
            t.wager.bankroll == s.wager.bankroll + 2 * winAmount &&
            t.stats.handsPlayed == s.stats.handsPlayed + 2 && t.stats.wins == s.stats.wins + 2 &&
            t.session.roundNumber == s.session.roundNumber + 2
  {
  }

  /** A push after a winning or losing streak takes `updateStreak`'s "streak
      broken" branch: the streak becomes -1 of type push. */
  lemma PushBreaksStreakToMinusOne(s: Streak)
    requires s.kind == WinStreak || s.kind == LoseStreak
    ensures StreakAfter(s, PushStreak) == Streak(-1, PushStreak)
  {
  }

  /** The celebration needs a streak of the same type that already reached two
      (in absolute value): a first outcome or a change of type never celebrates. */
  lemma CelebrationNeedsRunningStreak(s: Streak, t: StreakType)
    requires t != NoStreak && StreakConsistent(s)
    requires Celebrates(StreakAfter(s, t), t)
    ensures s.kind == t && t != PushStreak
    ensures s.current >= 2 || s.current <= -2
  {
  }

  /** The streak after `k` outcomes of type `t` in a row. */
  function Repeated(s: Streak, t: StreakType, k: nat): (r: Streak)
    requires t != NoStreak
    ensures k > 0 ==> r.kind == t
  {
    if k == 0 then s else StreakAfter(Repeated(s, t, k - 1), t)
  }

  /** From no streak, `k` wins in a row make a streak of `k`, and `k` losses a
      streak of `-k`; `k` pushes keep it at 0. */
  lemma {:induction false} RepeatedFromNoStreak(t: StreakType, k: nat)
    requires t != NoStreak
    ensures Repeated(Streak(0, NoStreak), t, k).current ==
            (if t == WinStreak then k as int else if t == LoseStreak then -(k as int) else 0)
  {
    if k > 0 {
      RepeatedFromNoStreak(t, k - 1);
    }
  }

  /** The celebration first sounds on the third win (or loss) in a row. */
  lemma CelebratesFromThird(t: StreakType, k: nat)
    requires t == WinStreak || t == LoseStreak
    requires k >= 1
    ensures Celebrates(Repeated(Streak(0, NoStreak), t, k), t) <==> k >= 3
  {
    RepeatedFromNoStreak(t, k);
  }

  // ---------------------------------------------------------------------------
  // Statistics over many rounds

  /** The statistics after recording each outcome of `outcomes`, with win amount
      `amounts[i]` for outcome `i`. */
  function RecordAll(st: Statistics, outcomes: seq<string>, amounts: seq<int>): Statistics
    requires |outcomes| == |amounts|
    decreases |outcomes|
  {
    if outcomes == [] then st
    else RecordAll(RecordOutcome(st, Classify(outcomes[0]), amounts[0]), outcomes[1..], amounts[1..])
  }

  /** How many outcomes are counted as wins (a blackjack is a win). */
  function WinCount(outcomes: seq<string>): nat
    decreases |outcomes|
  {
    if outcomes == [] then 0
    else (if outcomes[0] == "win" || outcomes[0] == "blackjack" then 1 else 0) + WinCount(outcomes[1..])
  }

  /** Every recorded outcome counts one hand played, recognised or not, and the
      wins are exactly the "win" and "blackjack" outcomes. */
  lemma {:induction false} RecordAllCounts(st: Statistics, outcomes: seq<string>, amounts: seq<int>)
    requires |outcomes| == |amounts|
    ensures RecordAll(st, outcomes, amounts).handsPlayed == st.handsPlayed + |outcomes|
    ensures RecordAll(st, outcomes, amounts).wins == st.wins + WinCount(outcomes)
    ensures StatsConsistent(st) ==> StatsConsistent(RecordAll(st, outcomes, amounts))
    decreases |outcomes|
  {
    if outcomes != [] {
      RecordAllCounts(RecordOutcome(st, Classify(outcomes[0]), amounts[0]), outcomes[1..], amounts[1..]);
    }
  }
}
