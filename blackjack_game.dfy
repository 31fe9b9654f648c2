/** The `BlackjackGame` object of BlackjackGame.swift, and one method per public
    operation, each performing the source's assignments.
    Every method is proved to leave the object in the state the matching
    transition of `BlackjackRules` computes from the state before the call, so
    what `BlackjackRuns` proves about those transitions (the bookkeeping
    invariant, solvency, reachable states) holds of the object. The sound effects the
    methods request are not modelled, except the streak celebration, which
    `updateStreak` reports as its result. */
module BlackjackEngine {
  import opened R = BlackjackRules
  import BlackjackRuns
  import SwiftInt

  class BlackjackGame {
    /** The published properties (and the private `betHistory`), held as one
        `GameState` record whose components group them as the class's own
        comments do: `state.box1.bet` is `bet`, `state.box2.bet` is `hand2Bet`,
        `state.wager.bankroll` is `bankroll`, and so on (see `BlackjackRules`). */
    var state: GameState

    /** A new game, with every property at its declared default. */
    constructor ()
      ensures state == Initial()
    {
      state := GameState(
        Single, Setup, Session(false, 0, false, false), Wager(0, 0, false, false, 0, []),
        false, 1, EmptyBox, EmptyBox,
        NoSplit, NoResults, NoSplit, NoResults,
        Table(false, [], 0, false), FreshStatistics(), Streak(0, NoStreak));
    }

    // -------------------------------------------------------------------------
    // Game setup

    /** `startGame(mode:startingBankroll:playerNames:)`. */
    method StartGame(newMode: Mode, startingBankroll: int, playerNames: seq<string>)
      modifies this
      ensures state == R.StartGame(old(state), newMode, startingBankroll, playerNames)
    {
      ghost var s0 := state;
      state := state.(mode := newMode);
      state := state.(wager := state.wager.(bankroll := startingBankroll));
      state := state.(session := state.session.(gameStarted := true));
      state := state.(phase := Betting);
      state := state.(session := state.session.(roundNumber := 0));
      if newMode == Multiplayer {
        state := state.(table := state.table.(multiPlayerMode := true));
        state := state.(table := state.table.(players := SeatsFor(playerNames, startingBankroll)));
        state := state.(table := state.table.(activePlayerIndex := 0));
      } else if newMode == TwoHands {
        state := state.(twoHandsMode := true);
      }
      assert state == Started(s0, newMode, startingBankroll, playerNames);
      ResetRound();
    }

    /** `resetRound()`. */
    method ResetRound()
      modifies this
      ensures state == R.ResetRound(old(state))
    {
      state := state.(box1 := state.box1.(bet := 0, status := "", isDoubleDown := false, hasSurrendered := false, complete := false));
      state := state.(box2 := state.box2.(bet := 0, status := "", isDoubleDown := false, hasSurrendered := false, complete := false));
      state := state.(wager := state.wager.(hasInsurance := false, insuranceBet := 0));
      state := state.(split1 := state.split1.(isSplit := false, count := 0, activeHand := 1, slot1 := 0, slot2 := 0, slot3 := 0));
      state := state.(split2 := state.split2.(isSplit := false, count := 0, activeHand := 1, slot1 := 0, slot2 := 0, slot3 := 0));
      state := state.(activeBox := 1);
      state := state.(session := state.session.(betConfirmed := false, isDealing := false));
      state := state.(table := state.table.(dealerPhase := false));
      state := state.(results1 := HandResults("", "", "", ""));
      state := state.(results2 := HandResults("", "", "", ""));
      if state.wager.autoRebet && state.wager.lastBet > 0 {
        state := state.(box1 := state.box1.(bet := state.wager.lastBet));
      }
    }

    // -------------------------------------------------------------------------
    // Betting

    /** `placeBet(amount:)`. */
    method PlaceBet(amount: int)
      modifies this
      ensures state == R.PlaceBet(old(state), amount)
    {
      if !PlaceAccepted(state, amount) {
        return;
      }
      if state.mode == TwoHands {
        if state.activeBox == 1 {
          state := state.(box1 := state.box1.(bet := amount));
        } else {
          state := state.(box2 := state.box2.(bet := amount));
        }
      } else {
        state := state.(box1 := state.box1.(bet := amount));
      }
      state := state.(wager := state.wager.(betHistory := state.wager.betHistory + [amount]));
    }

    /** `confirmBet()`. */
    method ConfirmBet()
      modifies this
      ensures state == R.ConfirmBet(old(state))
    {
      if !ConfirmAccepted(state) {
        return;
      }
      if state.mode == TwoHands {
        state := state.(wager := state.wager.(bankroll := state.wager.bankroll - (state.box1.bet + state.box2.bet)));
      } else if state.mode == Multiplayer {
        var i := state.table.activePlayerIndex;
        var player := state.table.players[i];
        state := state.(table := state.table.(players := state.table.players[i := player.(
                                                   bankroll := player.bankroll - player.bet)]));
      } else {
        state := state.(wager := state.wager.(bankroll := state.wager.bankroll - state.box1.bet));
      }
      state := state.(wager := state.wager.(lastBet := state.box1.bet));
      state := state.(session := state.session.(betConfirmed := true));
      state := state.(phase := Playing);
    }

    /** `undoBet()`. */
    method UndoBet()
      modifies this
      ensures state == R.UndoBet(old(state))
    {
      if !UndoAccepted(state) {
        return;
      }
      var last := state.wager.betHistory[|state.wager.betHistory| - 1];
      state := state.(wager := state.wager.(betHistory := state.wager.betHistory[..|state.wager.betHistory| - 1]));
      if state.mode == TwoHands {
        if state.activeBox == 1 {
          state := state.(box1 := state.box1.(bet := if state.box1.bet - last > 0 then state.box1.bet - last else 0));
        } else {
          state := state.(box2 := state.box2.(bet := if state.box2.bet - last > 0 then state.box2.bet - last else 0));
        }
      } else {
        state := state.(box1 := state.box1.(bet := if state.box1.bet - last > 0 then state.box1.bet - last else 0));
      }
    }

    // -------------------------------------------------------------------------
    // Game actions

    /** `hit()`: card dealing is not part of the class; nothing changes. */
    method Hit()
      ensures state == R.Hit(old(state))
    {
      if state.phase != Playing {
        return;
      }
    }

    /** `stand()`. */
    method Stand()
      modifies this
      ensures state == R.Stand(old(state))
    {
      if state.phase != Playing {
        return;
      }
      if state.mode == TwoHands {
        if state.activeBox == 1 {
          state := state.(box1 := state.box1.(complete := true));
          if !state.box2.complete {
            state := state.(activeBox := 2);
          } else {
            state := state.(phase := Dealer);
          }
        } else {
          state := state.(box2 := state.box2.(complete := true));
          if !state.box1.complete {
            state := state.(activeBox := 1);
          } else {
            state := state.(phase := Dealer);
          }
        }
      } else {
        state := state.(phase := Dealer);
      }
    }

    /** `doubleDown()`: the debit and the doubled bet, then `stand()`. */
    method DoubleDown()
      modifies this
      ensures state == R.DoubleDown(old(state))
    {
      ghost var s0 := state;
      if !DoubleAccepted(state) {
        return;
      }
      var currentBet := CurrentBet(state);
      state := state.(wager := state.wager.(bankroll := state.wager.bankroll - currentBet));
      if state.mode == TwoHands {
        if state.activeBox == 1 {
          state := state.(box1 := state.box1.(bet := state.box1.bet + currentBet, isDoubleDown := true));
        } else {
          state := state.(box2 := state.box2.(bet := state.box2.bet + currentBet, isDoubleDown := true));
        }
      } else {
        state := state.(box1 := state.box1.(bet := state.box1.bet + currentBet, isDoubleDown := true));
      }
      assert state == Doubled(s0);
      Stand();
    }

    /** `split()`. The cap is box 1's `splitCount` whichever box is active. */
    method Split()
      modifies this
      ensures state == R.Split(old(state))
    {
      if !SplitAccepted(state) {
        return;
      }
      var currentBet := CurrentBet(state);
      state := state.(wager := state.wager.(bankroll := state.wager.bankroll - currentBet));
      if state.mode == TwoHands && state.activeBox != 1 {
        state := state.(split2 := state.split2.(isSplit := true));
        state := state.(split2 := state.split2.(count := state.split2.count + 1));
        state := state.(split2 := state.split2.(originalBet := state.box2.bet));
        if state.split2.count == 1 {
          state := state.(split2 := state.split2.(slot1 := state.box2.bet));
        } else if state.split2.count == 2 {
          state := state.(split2 := state.split2.(slot2 := state.box2.bet));
        } else {
          state := state.(split2 := state.split2.(slot3 := state.box2.bet));
        }
        state := state.(split2 := state.split2.(activeHand := state.split2.count + 1));
      } else {
        state := state.(split1 := state.split1.(isSplit := true));
        state := state.(split1 := state.split1.(count := state.split1.count + 1));
        state := state.(split1 := state.split1.(originalBet := state.box1.bet));
        if state.split1.count == 1 {
          state := state.(split1 := state.split1.(slot1 := state.box1.bet));
        } else if state.split1.count == 2 {
          state := state.(split1 := state.split1.(slot2 := state.box1.bet));
        } else {
          state := state.(split1 := state.split1.(slot3 := state.box1.bet));
        }
        state := state.(split1 := state.split1.(activeHand := state.split1.count + 1));
      }
    }

    /** `surrender()`. */
    method Surrender()
      modifies this
      ensures state == R.Surrender(old(state))
    {
      if state.phase != Playing {
        return;
      }
      if state.mode == TwoHands {
        if state.activeBox == 1 {
          state := state.(box1 := state.box1.(hasSurrendered := true));
          state := state.(wager := state.wager.(bankroll := state.wager.bankroll + SwiftInt.Quot(state.box1.bet, 2)));
          state := state.(box1 := state.box1.(complete := true));
          if !state.box2.complete {
            state := state.(activeBox := 2);
          } else {
            state := state.(phase := Dealer);
          }
        } else {
          state := state.(box2 := state.box2.(hasSurrendered := true));
          state := state.(wager := state.wager.(bankroll := state.wager.bankroll + SwiftInt.Quot(state.box2.bet, 2)));
          state := state.(box2 := state.box2.(complete := true));
          if !state.box1.complete {
            state := state.(activeBox := 1);
          } else {
            state := state.(phase := Dealer);
          }
        }
      } else {
        state := state.(box1 := state.box1.(hasSurrendered := true));
        state := state.(wager := state.wager.(bankroll := state.wager.bankroll + SwiftInt.Quot(state.box1.bet, 2)));
        state := state.(phase := Dealer);
      }
    }

    /** `takeInsurance()`. */
    method TakeInsurance()
      modifies this
      ensures state == R.TakeInsurance(old(state))
    {
      if !InsuranceAccepted(state) {
        return;
      }
      var insuranceAmount := InsurancePremium(state);
      state := state.(wager := state.wager.(bankroll := state.wager.bankroll - insuranceAmount));
      state := state.(wager := state.wager.(insuranceBet := insuranceAmount));
      state := state.(wager := state.wager.(hasInsurance := true));
    }

    // -------------------------------------------------------------------------
    // Round completion

    /** `completeRound(outcome:winAmount:)`; the result says whether the streak
        celebration sounds. */
    method CompleteRound(outcome: string, winAmount: int) returns (celebrated: bool)
      modifies this
      ensures state == R.CompleteRound(old(state), outcome, winAmount)
      ensures celebrated == CompletionCelebrates(old(state), outcome)
    {
      ghost var s0 := state;
      state := state.(phase := Result);
      if state.mode == TwoHands {
        if state.activeBox == 1 {
          state := state.(results1 := state.results1.(first := outcome));
          state := state.(box1 := state.box1.(winAmount := winAmount));
          state := state.(wager := state.wager.(bankroll := state.wager.bankroll + winAmount));
        } else {
          state := state.(results1 := state.results1.(second := outcome));
          state := state.(box2 := state.box2.(winAmount := winAmount));
          state := state.(wager := state.wager.(bankroll := state.wager.bankroll + winAmount));
        }
      } else {
        state := state.(box1 := state.box1.(status := outcome));
        state := state.(wager := state.wager.(bankroll := state.wager.bankroll + winAmount));
      }
      assert state == Settled(s0, outcome, winAmount);
      celebrated := UpdateStats(outcome, winAmount);
      state := state.(session := state.session.(roundNumber := state.session.roundNumber + 1));
    }

    /** `updateStats(outcome:winAmount:)`; the result says whether the streak
        celebration sounds. */
    method UpdateStats(outcome: string, winAmount: int) returns (celebrated: bool)
      modifies this
      ensures state == R.UpdateStats(old(state), outcome, winAmount)
      ensures celebrated == CompletionCelebrates(old(state), outcome)
    {
      state := state.(stats := state.stats.(handsPlayed := state.stats.handsPlayed + 1));
      celebrated := false;
      if outcome == "win" || outcome == "blackjack" {
        state := state.(stats := state.stats.(wins := state.stats.wins + 1));
        state := state.(stats := state.stats.(totalWon := state.stats.totalWon + winAmount));
        state := state.(stats := state.stats.(biggestWin := if state.stats.biggestWin >= winAmount then state.stats.biggestWin else winAmount));
        if outcome == "blackjack" {
          state := state.(stats := state.stats.(blackjacks := state.stats.blackjacks + 1));
        }
        celebrated := UpdateStreak(WinStreak);
      } else if outcome == "lose" {
        state := state.(stats := state.stats.(losses := state.stats.losses + 1));
        state := state.(stats := state.stats.(totalLost := state.stats.totalLost + (if winAmount < 0 then -winAmount else winAmount)));
        celebrated := UpdateStreak(LoseStreak);
      } else if outcome == "push" {
        state := state.(stats := state.stats.(pushes := state.stats.pushes + 1));
        celebrated := UpdateStreak(PushStreak);
      }
    }

    /** `updateStreak(type:)`; the result says whether the streak celebration
        sounds. */
    method UpdateStreak(t: StreakType) returns (celebrated: bool)
      requires t != NoStreak
      modifies this
      ensures state == old(state).(streak := StreakAfter(old(state).streak, t))
      ensures celebrated == Celebrates(StreakAfter(old(state).streak, t), t)
    {
      if t == state.streak.kind || state.streak.kind == NoStreak {
        if t == WinStreak {
          state := state.(streak := state.streak.(current := state.streak.current + 1));
        } else if t == LoseStreak {
          state := state.(streak := state.streak.(current := state.streak.current - 1));
        }
        state := state.(streak := state.streak.(kind := t));
      } else {
        state := state.(streak := state.streak.(current := if t == WinStreak then 1 else -1));
        state := state.(streak := state.streak.(kind := t));
      }
      celebrated := (state.streak.current >= 3 || state.streak.current <= -3) && t != PushStreak;
    }

    /** `resetGame()`. */
    method ResetGame()
      modifies this
      ensures state == R.ResetGame(old(state))
    {
      state := state.(session := state.session.(gameStarted := false));
      state := state.(phase := Setup);
      state := state.(session := state.session.(roundNumber := 0));
      state := state.(wager := state.wager.(bankroll := 0));
      state := state.(box1 := state.box1.(bet := 0));
      state := state.(wager := state.wager.(lastBet := 0));
      state := state.(stats := FreshStatistics());
      ResetRound();
    }
  }

  /** A whole hand on a new game object: a single-hand game with 1000 chips, a
      bet of 100, a double-down that wins 400. The doubled stake comes out of
      the bankroll and the winnings go in, leaving 1200, and the win opens a
      streak of one. */
  method PlayDoubledWin() returns (bankroll: int, wins: int, streak: Streak)
    ensures bankroll == 1200 && wins == 1 && streak == Streak(1, WinStreak)
  {
    var game := new BlackjackGame();
    ghost var s0 := game.state;
    game.StartGame(Single, 1000, []);
    game.PlaceBet(100);
    game.ConfirmBet();
    game.DoubleDown();
    var _ := game.CompleteRound("win", 400);
    BlackjackRuns.DoubleDownWin(s0);
    bankroll, wins, streak := game.state.wager.bankroll, game.state.stats.wins, game.state.streak;
  }
}
