/** The blackjack wagering rules of BlackjackGame.swift as pure transitions on a
    snapshot of the game object's fields. Each function is one method of the
    Swift class: guard-checked, a no-op when a guard fails, otherwise a small
    deterministic change of the snapshot. The class in blackjack_game.dfy
    performs the same changes field by field and is proved to agree with these
    functions.

    The snapshot groups the class's flat fields the way the class's own comments
    group them (game state, wager, the two boxes, split bookkeeping, multiplayer
    table, statistics); the grouping keeps whole-snapshot comparisons cheap for
    the verifier and changes nothing about the values. */
module BlackjackRules {
  import opened SwiftInt
  import opened Player

  datatype Mode = Single | TwoHands | Multiplayer

  datatype Phase = Setup | Betting | Playing | Dealer | Result

  /** The outcome labels `completeRound` recognises; any other text is `Other`. */
  datatype Outcome = Win | Blackjack | Lose | Push | Other

  /** The values the `streakType` string takes: "" (no streak yet), "win", "lose", "push". */
  datatype StreakType = NoStreak | WinStreak | LoseStreak | PushStreak

  /** `currentStreak` (positive for wins, negative for losses) and `streakType`. */
  datatype Streak = Streak(current: int, kind: StreakType)

  /** The aggregate statistics `completeRound` maintains (`BlackjackStatistics`). */
  datatype Statistics = Statistics(
    handsPlayed: int, wins: int, losses: int, pushes: int, blackjacks: int,
    totalWon: int, totalLost: int, biggestWin: int)

  /** `gameStarted`, `roundNumber`, `betConfirmed` and `isDealing`. */
  datatype Session = Session(gameStarted: bool, roundNumber: int, betConfirmed: bool, isDealing: bool)

  /** The money side of the game: `bankroll`, `lastBet`, `autoRebet`, the
      insurance side bet, and the undo stack `betHistory`. */
  datatype Wager = Wager(
    bankroll: int, lastBet: int, autoRebet: bool,
    hasInsurance: bool, insuranceBet: int, betHistory: seq<int>)

  /** One betting box. Box 1 is `bet`, `status`, `isDoubleDown`, `hasSurrendered`,
      `hand1Complete`, `hand1WinAmount`; box 2 is `hand2Bet`, `hand2Status`,
      `hand2IsDoubleDown`, `hand2HasSurrendered`, `hand2Complete`, `hand2WinAmount`. */
  datatype Box = Box(
    bet: int, status: string, isDoubleDown: bool, hasSurrendered: bool,
    complete: bool, winAmount: int)

  /** One box's split bookkeeping: `isSplit`, `splitCount`, the three split slots
      `splitBet`, `splitBet2`, `splitBet3`, `activeHand` (1..4) and `splitOriginalBet`
      (for box 2 the `hand2`-prefixed fields of the same names). */
  datatype SplitBook = SplitBook(
    isSplit: bool, count: int, slot1: int, slot2: int, slot3: int,
    activeHand: int, originalBet: int)

  /** Four result strings: `hand1Result` … `hand4Result` for box 1, and
      `hand2Hand1Result` … `hand2Hand4Result` for box 2. In two-hands mode
      `completeRound` writes box 1's `first` and `second` (`hand1Result`,
      `hand2Result`) as the results of box 1 and box 2. */
  datatype HandResults = HandResults(first: string, second: string, third: string, fourth: string)

  /** `multiPlayerMode`, `players`, `activePlayerIndex` and `dealerPhase`. */
  datatype Table = Table(
    multiPlayerMode: bool, players: seq<BlackjackPlayer>, activePlayerIndex: nat, dealerPhase: bool)

  /** The observable fields of a `BlackjackGame` object. */
  datatype GameState = GameState(
    mode: Mode, phase: Phase, session: Session, wager: Wager,
    twoHandsMode: bool, activeBox: int, box1: Box, box2: Box,
    split1: SplitBook, results1: HandResults, split2: SplitBook, results2: HandResults,
    table: Table, stats: Statistics, streak: Streak)

  // ---------------------------------------------------------------------------
  // Initial values

  /** `BlackjackStatistics()`: every counter 0. */
  function FreshStatistics(): (st: Statistics)
    ensures StatsConsistent(st) && st.handsPlayed == 0 && st.totalWon == 0
  {
    Statistics(0, 0, 0, 0, 0, 0, 0, 0)
  }

  const EmptyBox: Box := Box(0, "", false, false, false, 0)
  const NoSplit: SplitBook := SplitBook(false, 0, 0, 0, 0, 1, 0)
  const NoResults: HandResults := HandResults("", "", "", "")

  /** The field values of a newly created `BlackjackGame`. */
  function Initial(): (s: GameState)
    ensures Inv(s) && s.phase == Setup && !s.session.gameStarted
    ensures s.wager.bankroll == 0 && s.wager.betHistory == [] && s.table.players == []
    ensures s.mode == Single && !s.wager.autoRebet && s.wager.lastBet == 0
    ensures s.stats == FreshStatistics() && s.streak == Streak(0, NoStreak)
  {
    GameState(
      Single, Setup, Session(false, 0, false, false), Wager(0, 0, false, false, 0, []),
      false, 1, EmptyBox, EmptyBox,
      NoSplit, NoResults, NoSplit, NoResults,
      Table(false, [], 0, false), FreshStatistics(), Streak(0, NoStreak))
  }

  // ---------------------------------------------------------------------------
  // Invariants kept by every operation

  /** The split bookkeeping of one box: the active hand is the newest one and only
      the slots of splits that happened hold a bet. */
  predicate SplitBookValid(b: SplitBook) {
    b.count >= 0 &&
    b.activeHand == b.count + 1 &&
    (b.isSplit <==> b.count > 0) &&
    (b.count < 1 ==> b.slot1 == 0) &&
    (b.count < 2 ==> b.slot2 == 0) &&
    (b.count < 3 ==> b.slot3 == 0)
  }

  /** Counters never go below zero, and together they never exceed the hands
      played (an unrecognised outcome counts as played but as no result). */
  predicate StatsConsistent(st: Statistics) {
    st.wins >= 0 && st.losses >= 0 && st.pushes >= 0 &&
    0 <= st.blackjacks <= st.wins &&
    st.wins + st.losses + st.pushes <= st.handsPlayed &&
    st.totalLost >= 0 && st.biggestWin >= 0
  }

  /** The streak's sign agrees with its type: a win streak is positive, a loss
      streak negative; a push streak holds -1 after a broken streak, or 0 if it
      was the first outcome. */
  predicate StreakConsistent(s: Streak) {
    match s.kind
    case NoStreak => s.current == 0
    case WinStreak => s.current >= 1
    case LoseStreak => s.current <= -1
    case PushStreak => s.current == 0 || s.current == -1
  }

  /** Every entry of the undo stack is an accepted, hence positive, bet. */
  predicate HistoryPositive(h: seq<int>) {
    forall k :: 0 <= k < |h| ==> h[k] > 0
  }

  /** What every operation preserves. The bankroll is deliberately absent: see
      `ConfirmBet` and `CompleteRound`. */
  predicate Inv(s: GameState) {
    (s.activeBox == 1 || s.activeBox == 2) &&
    s.box1.bet >= 0 && s.box2.bet >= 0 && s.wager.lastBet >= 0 &&
    SplitBookValid(s.split1) && s.split1.count <= 3 &&
    SplitBookValid(s.split2) &&
    (s.wager.hasInsurance <==> s.wager.insuranceBet > 0) &&
    StatsConsistent(s.stats) &&
    StreakConsistent(s.streak) &&
    HistoryPositive(s.wager.betHistory)
  }

  // ---------------------------------------------------------------------------
  // The box the source's conditionals select

  /** Whether `placeBet`, `undoBet`, `stand`, `doubleDown`, `split`, `surrender` and
      `completeRound` act on box 2: two-hands mode with `activeBox != 1` (their
      `else` branches). */
  predicate OnSecondBox(s: GameState) {
    s.mode == TwoHands && s.activeBox != 1
  }

  /** The bet `placeBet` and `undoBet` write. */
  function SelectedBet(s: GameState): int {
    if OnSecondBox(s) then s.box2.bet else s.box1.bet
  }

  /** `mode == .twoHands && activeBox == 2 ? hand2Bet : bet`, the "current bet"
      of `doubleDown`, `split` and `takeInsurance`. */
  function CurrentBet(s: GameState): int {
    if s.mode == TwoHands && s.activeBox == 2 then s.box2.bet else s.box1.bet
  }

  // ---------------------------------------------------------------------------
  // Game setup

  /** A box with no outcome recorded and no action taken (its bet and its last
      win amount are separate matters). */
  predicate BoxCleared(b: Box) {
    b.status == "" && !b.isDoubleDown && !b.hasSurrendered && !b.complete
  }

  /** A split book with no split (the remembered original bet is not reset). */
  predicate SplitCleared(b: SplitBook) {
    !b.isSplit && b.count == 0 && b.activeHand == 1 &&
    b.slot1 == 0 && b.slot2 == 0 && b.slot3 == 0
  }

  /** Every per-round field back at its start-of-round value. */
  predicate RoundCleared(s: GameState) {
    s.box2.bet == 0 && BoxCleared(s.box1) && BoxCleared(s.box2) &&
    !s.wager.hasInsurance && s.wager.insuranceBet == 0 &&
    SplitCleared(s.split1) && SplitCleared(s.split2) &&
    s.activeBox == 1 &&
    !s.session.betConfirmed && !s.session.isDealing && !s.table.dealerPhase &&
    s.results1 == NoResults && s.results2 == NoResults
  }

  /** Fields a reset of the round leaves as they were. */
  predicate SameSession(s: GameState, r: GameState) {
    r.mode == s.mode && r.phase == s.phase && r.twoHandsMode == s.twoHandsMode &&
    r.session.gameStarted == s.session.gameStarted &&
    r.session.roundNumber == s.session.roundNumber &&
    r.wager.bankroll == s.wager.bankroll && r.wager.lastBet == s.wager.lastBet &&
    r.wager.autoRebet == s.wager.autoRebet && r.wager.betHistory == s.wager.betHistory &&
    r.table.multiPlayerMode == s.table.multiPlayerMode && r.table.players == s.table.players &&
    r.table.activePlayerIndex == s.table.activePlayerIndex &&
    r.box1.winAmount == s.box1.winAmount && r.box2.winAmount == s.box2.winAmount &&
    r.split1.originalBet == s.split1.originalBet && r.split2.originalBet == s.split2.originalBet &&
    r.stats == s.stats && r.streak == s.streak
  }

  /** The seats of a multiplayer game, one per name, each with the starting bankroll. */
  function SeatsFor(names: seq<string>, bankroll: int): (seats: seq<BlackjackPlayer>)
    ensures |seats| == |names|
    ensures forall i :: 0 <= i < |seats| ==>
              seats[i].name == names[i] && seats[i].bankroll == bankroll &&
              SeatCleared(seats[i]) && SplitBookkept(seats[i])
  {
    seq(|names|, i requires 0 <= i < |names| => NewBlackjackPlayer(names[i], bankroll))
  }

  /** The bet `resetRound` pre-fills: the last confirmed bet when auto-rebet is on. */
  function Rebet(w: Wager): int {
    if w.autoRebet && w.lastBet > 0 then w.lastBet else 0
  }

  /** A box at the start of a round, holding `bet`. */
  function ClearedBox(b: Box, bet: int): (r: Box)
    ensures BoxCleared(r) && r.bet == bet && r.winAmount == b.winAmount
  {
    b.(bet := bet, status := "", isDoubleDown := false, hasSurrendered := false, complete := false)
  }

  /** A split book at the start of a round. */
  function ClearedSplit(b: SplitBook): (r: SplitBook)
    ensures SplitCleared(r) && r.originalBet == b.originalBet
  {
    b.(isSplit := false, count := 0, activeHand := 1, slot1 := 0, slot2 := 0, slot3 := 0)
  }

  /** `resetRound`: clear every per-round field, and pre-fill the previous bet
      when auto-rebet is on. */
  function ResetRound(s: GameState): (r: GameState)
    ensures RoundCleared(r) && SameSession(s, r)
    ensures r.box1.bet == (if s.wager.autoRebet && s.wager.lastBet > 0 then s.wager.lastBet else 0)
  {
    s.(session := s.session.(betConfirmed := false, isDealing := false),
       wager := s.wager.(hasInsurance := false, insuranceBet := 0),
       activeBox := 1,
       box1 := ClearedBox(s.box1, Rebet(s.wager)), box2 := ClearedBox(s.box2, 0),
       split1 := ClearedSplit(s.split1), split2 := ClearedSplit(s.split2),
       results1 := NoResults, results2 := NoResults,
       table := s.table.(dealerPhase := false))
  }

  /** The fields `startGame` assigns before it resets the round. */
  function Started(s: GameState, mode: Mode, startingBankroll: int, names: seq<string>): (r: GameState)
    ensures r.mode == mode && r.phase == Betting && r.session.gameStarted
    ensures r.wager.bankroll == startingBankroll && r.session.roundNumber == 0
    ensures r.wager.lastBet == s.wager.lastBet && r.wager.autoRebet == s.wager.autoRebet
    ensures r.wager.betHistory == s.wager.betHistory && r.stats == s.stats && r.streak == s.streak
    ensures mode == Multiplayer ==>
              r.table.multiPlayerMode && r.table.players == SeatsFor(names, startingBankroll) &&
              r.table.activePlayerIndex == 0
    ensures mode != Multiplayer ==> r.table == s.table
    ensures mode == TwoHands ==> r.twoHandsMode
    ensures mode != TwoHands ==> r.twoHandsMode == s.twoHandsMode
    ensures r == s.(mode := mode, phase := Betting, twoHandsMode := r.twoHandsMode, table := r.table,
                    session := s.session.(gameStarted := true, roundNumber := 0),
                    wager := s.wager.(bankroll := startingBankroll))
  {
    if mode == Multiplayer then
      s.(mode := mode, wager := s.wager.(bankroll := startingBankroll),
         session := s.session.(gameStarted := true, roundNumber := 0), phase := Betting,
         table := s.table.(multiPlayerMode := true, players := SeatsFor(names, startingBankroll),
                           activePlayerIndex := 0))
    else if mode == TwoHands then
      s.(mode := mode, wager := s.wager.(bankroll := startingBankroll),
         session := s.session.(gameStarted := true, roundNumber := 0), phase := Betting,
         twoHandsMode := true)
    else
      s.(mode := mode, wager := s.wager.(bankroll := startingBankroll),
         session := s.session.(gameStarted := true, roundNumber := 0), phase := Betting)
  }

  /** `startGame`: enter betting with the starting bankroll and a fresh round;
      statistics, streak, last bet and bet history carry over. */
  function StartGame(s: GameState, mode: Mode, startingBankroll: int, names: seq<string>): (r: GameState)
    ensures r.mode == mode && r.phase == Betting && r.session.gameStarted
    ensures r.wager.bankroll == startingBankroll && r.session.roundNumber == 0
    ensures RoundCleared(r)
    ensures r.box1.bet == (if s.wager.autoRebet && s.wager.lastBet > 0 then s.wager.lastBet else 0)
    ensures r.wager.betHistory == s.wager.betHistory && r.stats == s.stats && r.streak == s.streak
    ensures mode == Multiplayer ==>
              |r.table.players| == |names| && r.table.activePlayerIndex == 0 &&
              forall i :: 0 <= i < |names| ==>
                r.table.players[i].name == names[i] &&
                r.table.players[i].bankroll == startingBankroll && r.table.players[i].bet == 0
    ensures r.wager.lastBet == s.wager.lastBet && r.wager.autoRebet == s.wager.autoRebet
    ensures mode == TwoHands ==> r.twoHandsMode
    ensures mode != TwoHands ==> r.twoHandsMode == s.twoHandsMode
    ensures mode != Multiplayer ==>
              r.table.players == s.table.players && r.table.multiPlayerMode == s.table.multiPlayerMode &&
              r.table.activePlayerIndex == s.table.activePlayerIndex
    ensures SameSession(Started(s, mode, startingBankroll, names), r)
  {
    ResetRound(Started(s, mode, startingBankroll, names))
  }

  // ---------------------------------------------------------------------------
  // Betting

  /** Whether `placeBet`'s guard lets the bet through. */
  predicate PlaceAccepted(s: GameState, amount: int) {
    s.phase == Betting && 0 < amount <= s.wager.bankroll
  }

  /** `placeBet`: an accepted amount replaces (does not add to) the selected box's
      bet and is pushed on the bet history; nothing else changes. */
  function PlaceBet(s: GameState, amount: int): (r: GameState)
    ensures !PlaceAccepted(s, amount) ==> r == s
    ensures PlaceAccepted(s, amount) ==>
              SelectedBet(r) == amount && r.wager.betHistory == s.wager.betHistory + [amount]
    ensures OnSecondBox(s) ==> r.box1 == s.box1
    ensures !OnSecondBox(s) ==> r.box2 == s.box2
    ensures r == s.(wager := s.wager.(betHistory := r.wager.betHistory),
                    box1 := s.box1.(bet := r.box1.bet), box2 := s.box2.(bet := r.box2.bet))
  {
    if PlaceAccepted(s, amount) then
      if OnSecondBox(s) then
        s.(box2 := s.box2.(bet := amount), wager := s.wager.(betHistory := s.wager.betHistory + [amount]))
      else
        s.(box1 := s.box1.(bet := amount), wager := s.wager.(betHistory := s.wager.betHistory + [amount]))
    else s
  }

  /** Bankroll a confirmation takes from the game's own bankroll when it goes
      through: both boxes in two-hands mode, the one bet in single mode, nothing in
      multiplayer mode (where the seat pays). */
  function ConfirmDebit(s: GameState): int {
    match s.mode
    case TwoHands => s.box1.bet + s.box2.bet
    case Single => s.box1.bet
    case Multiplayer => 0
  }

  /** Whether `confirmBet`'s guards let the confirmation through. */
  predicate ConfirmAccepted(s: GameState) {
    s.phase == Betting &&
    match s.mode
    case TwoHands => s.box1.bet > 0 && s.box2.bet > 0
    case Multiplayer =>
      s.table.activePlayerIndex < |s.table.players| &&
      0 < s.table.players[s.table.activePlayerIndex].bet <= s.table.players[s.table.activePlayerIndex].bankroll
    case Single => s.box1.bet > 0
  }

  /** The seats after seat `i` pays its own bet. */
  function SeatPays(players: seq<BlackjackPlayer>, i: nat): (r: seq<BlackjackPlayer>)
    requires i < |players|
    ensures |r| == |players|
    ensures r[i] == players[i].(bankroll := players[i].bankroll - players[i].bet)
    ensures forall j :: 0 <= j < |players| && j != i ==> r[j] == players[j]
  {
    players[i := players[i].(bankroll := players[i].bankroll - players[i].bet)]
  }

  /** `confirmBet`: debit the stakes, remember the bet and start playing.
      Neither single nor two-hands mode checks the debit against the bankroll;
      multiplayer mode checks the seat's bet against the seat's bankroll. */
  function ConfirmBet(s: GameState): (r: GameState)
    ensures !ConfirmAccepted(s) ==> r == s
    ensures ConfirmAccepted(s) ==>
              r.phase == Playing && r.session.betConfirmed && r.wager.lastBet == s.box1.bet &&
              r.wager.bankroll == s.wager.bankroll - ConfirmDebit(s)
    ensures ConfirmAccepted(s) && s.mode == Multiplayer ==>
              r.table.players == SeatPays(s.table.players, s.table.activePlayerIndex) &&
              r.table.players[s.table.activePlayerIndex].bankroll >= 0
    ensures s.mode != Multiplayer ==> r.table == s.table
    ensures r == s.(phase := r.phase, session := s.session.(betConfirmed := r.session.betConfirmed),
                    wager := s.wager.(bankroll := r.wager.bankroll, lastBet := r.wager.lastBet),
                    table := s.table.(players := r.table.players))
  {
    if !ConfirmAccepted(s) then s
    else if s.mode == Multiplayer then
      s.(phase := Playing, session := s.session.(betConfirmed := true),
         wager := s.wager.(lastBet := s.box1.bet),
         table := s.table.(players := SeatPays(s.table.players, s.table.activePlayerIndex)))
    else
      s.(phase := Playing, session := s.session.(betConfirmed := true),
         wager := s.wager.(bankroll := s.wager.bankroll - ConfirmDebit(s), lastBet := s.box1.bet))
  }

  /** Whether `undoBet` has a bet to take back. */
  predicate UndoAccepted(s: GameState) {
    s.phase == Betting && s.wager.betHistory != []
  }

  /** `undoBet`: pop the last history entry and take it off the selected box's
      bet, never below 0; a no-op outside betting or with an empty history. */
  function UndoBet(s: GameState): (r: GameState)
    ensures !UndoAccepted(s) ==> r == s
    ensures UndoAccepted(s) ==>
              var h := s.wager.betHistory;
              var last := h[|h| - 1];
              r.wager.betHistory == h[..|h| - 1] &&
              SelectedBet(r) == (if SelectedBet(s) - last > 0 then SelectedBet(s) - last else 0)
    ensures OnSecondBox(s) ==> r.box1 == s.box1
    ensures !OnSecondBox(s) ==> r.box2 == s.box2
    ensures r == s.(wager := s.wager.(betHistory := r.wager.betHistory),
                    box1 := s.box1.(bet := r.box1.bet), box2 := s.box2.(bet := r.box2.bet))
  {
    if UndoAccepted(s) then
      var h := s.wager.betHistory;
      var last := h[|h| - 1];
      if OnSecondBox(s) then
        s.(box2 := s.box2.(bet := if s.box2.bet - last > 0 then s.box2.bet - last else 0),
           wager := s.wager.(betHistory := h[..|h| - 1]))
      else
        s.(box1 := s.box1.(bet := if s.box1.bet - last > 0 then s.box1.bet - last else 0),
           wager := s.wager.(betHistory := h[..|h| - 1]))
    else s
  }

  // ---------------------------------------------------------------------------
  // Playing

  /** `hit`: card dealing is not part of the class, so hitting changes nothing,
      inside or outside the playing phase. */
  function Hit(s: GameState): (r: GameState)
    ensures r == s
  {
    s
  }

  /** `stand`: in two-hands mode mark the active box complete and move to the
      other box if it is still open, else to the dealer; otherwise straight to the
      dealer. */
  function Stand(s: GameState): (r: GameState)
    ensures s.phase != Playing ==> r == s
    ensures s.phase == Playing && s.mode != TwoHands ==> r == s.(phase := Dealer)
    ensures s.phase == Playing && s.mode == TwoHands ==>
              r.box1.complete == (s.box1.complete || !OnSecondBox(s)) &&
              r.box2.complete == (s.box2.complete || OnSecondBox(s)) &&
              (r.phase == Playing || r.phase == Dealer) &&
              (r.phase == Dealer <==> r.box1.complete && r.box2.complete) &&
              (r.phase == Playing <==> r.activeBox != s.activeBox) &&
              (r.phase == Playing ==> r.activeBox == (if OnSecondBox(s) then 1 else 2))
    ensures r == s.(phase := r.phase, activeBox := r.activeBox,
                    box1 := s.box1.(complete := r.box1.complete),
                    box2 := s.box2.(complete := r.box2.complete))
  {
    if s.phase != Playing then s
    else if s.mode == TwoHands then
      if !OnSecondBox(s) then
        if !s.box2.complete then s.(box1 := s.box1.(complete := true), activeBox := 2)
        else s.(box1 := s.box1.(complete := true), phase := Dealer)
      else
        if !s.box1.complete then s.(box2 := s.box2.(complete := true), activeBox := 1)
        else s.(box2 := s.box2.(complete := true), phase := Dealer)
    else s.(phase := Dealer)
  }

  /** The stake `doubleDown` and `split` take: the current bet, when it is
      positive and the bankroll covers it. */
  predicate StakeCovered(s: GameState) {
    0 < CurrentBet(s) <= s.wager.bankroll
  }

  /** Whether `doubleDown`'s guards let the double through. */
  predicate DoubleAccepted(s: GameState) {
    s.phase == Playing && StakeCovered(s)
  }

  /** The debit-and-double part of `doubleDown`, before it stands. */
  function Doubled(s: GameState): (r: GameState)
    ensures r.wager.bankroll == s.wager.bankroll - CurrentBet(s)
    ensures r.phase == s.phase && r.mode == s.mode && r.activeBox == s.activeBox
    ensures r.box1.complete == s.box1.complete && r.box2.complete == s.box2.complete
    ensures OnSecondBox(s) ==>
              r.box2.bet == s.box2.bet + CurrentBet(s) && r.box2.isDoubleDown && r.box1 == s.box1
    ensures !OnSecondBox(s) ==>
              r.box1.bet == s.box1.bet + CurrentBet(s) && r.box1.isDoubleDown && r.box2 == s.box2
  {
    if OnSecondBox(s) then
      s.(wager := s.wager.(bankroll := s.wager.bankroll - CurrentBet(s)),
         box2 := s.box2.(bet := s.box2.bet + CurrentBet(s), isDoubleDown := true))
    else
      s.(wager := s.wager.(bankroll := s.wager.bankroll - CurrentBet(s)),
         box1 := s.box1.(bet := s.box1.bet + CurrentBet(s), isDoubleDown := true))
  }

  /** `doubleDown`: when the bankroll covers the current bet, debit it, add it to
      the active box's bet, flag the double, and stand; the bankroll stays
      non-negative. */
  function DoubleDown(s: GameState): (r: GameState)
    ensures !DoubleAccepted(s) ==> r == s
    ensures DoubleAccepted(s) ==>
              r.wager.bankroll == s.wager.bankroll - CurrentBet(s) && r.wager.bankroll >= 0 &&
              r.phase == Stand(s).phase && r.activeBox == Stand(s).activeBox &&
              r.box1.complete == Stand(s).box1.complete && r.box2.complete == Stand(s).box2.complete
    ensures DoubleAccepted(s) && OnSecondBox(s) ==>
              r.box2.bet == s.box2.bet + CurrentBet(s) && r.box2.isDoubleDown &&
              r.box1.bet == s.box1.bet && r.box1.isDoubleDown == s.box1.isDoubleDown
    ensures DoubleAccepted(s) && !OnSecondBox(s) ==>
              r.box1.bet == s.box1.bet + CurrentBet(s) && r.box1.isDoubleDown &&
              r.box2.bet == s.box2.bet && r.box2.isDoubleDown == s.box2.isDoubleDown
    ensures s.wager.bankroll >= 0 ==> r.wager.bankroll >= 0
    ensures r == s.(wager := s.wager.(bankroll := r.wager.bankroll), phase := r.phase,
                    activeBox := r.activeBox,
                    box1 := s.box1.(bet := r.box1.bet, isDoubleDown := r.box1.isDoubleDown,
                                    complete := r.box1.complete),
                    box2 := s.box2.(bet := r.box2.bet, isDoubleDown := r.box2.isDoubleDown,
                                    complete := r.box2.complete))
  {
    if DoubleAccepted(s) then Stand(Doubled(s)) else s
  }

  /** One split of a box whose bet is `amount`: count it, remember the bet as the
      original, put it in the slot of this split (slot 1, 2, or 3 for every later
      split), and move to the new hand. */
  function SplitOnce(b: SplitBook, amount: int): (r: SplitBook)
    ensures r.count == b.count + 1 && r.activeHand == b.count + 2
    ensures r.isSplit && r.originalBet == amount
    ensures r.slot1 == (if r.count == 1 then amount else b.slot1)
    ensures r.slot2 == (if r.count == 2 then amount else b.slot2)
    ensures r.slot3 == (if r.count != 1 && r.count != 2 then amount else b.slot3)
    ensures SplitBookValid(b) ==> SplitBookValid(r)
  {
    var c := b.count + 1;
    if c == 1 then b.(isSplit := true, count := c, originalBet := amount, slot1 := amount, activeHand := c + 1)
    else if c == 2 then b.(isSplit := true, count := c, originalBet := amount, slot2 := amount, activeHand := c + 1)
    else b.(isSplit := true, count := c, originalBet := amount, slot3 := amount, activeHand := c + 1)
  }

  /** Whether `split`'s guards let a split through. The cap reads box 1's
      `splitCount` whichever box is active. */
  predicate SplitAccepted(s: GameState) {
    s.phase == Playing && StakeCovered(s) && s.split1.count < 3
  }

  /** `split`: debit the current bet and split the active box. */
  function Split(s: GameState): (r: GameState)
    ensures !SplitAccepted(s) ==> r == s
    ensures s.split1.count >= 3 ==> r == s
    ensures SplitAccepted(s) ==>
              r.wager.bankroll == s.wager.bankroll - CurrentBet(s) && r.wager.bankroll >= 0
    ensures SplitAccepted(s) && OnSecondBox(s) ==>
              r.split2 == SplitOnce(s.split2, s.box2.bet) && r.split1 == s.split1
    ensures SplitAccepted(s) && !OnSecondBox(s) ==>
              r.split1 == SplitOnce(s.split1, s.box1.bet) && r.split2 == s.split2
    ensures r == s.(wager := s.wager.(bankroll := r.wager.bankroll), split1 := r.split1, split2 := r.split2)
  {
    if !SplitAccepted(s) then s
    else if OnSecondBox(s) then
      s.(wager := s.wager.(bankroll := s.wager.bankroll - CurrentBet(s)),
         split2 := SplitOnce(s.split2, s.box2.bet))
    else
      s.(wager := s.wager.(bankroll := s.wager.bankroll - CurrentBet(s)),
         split1 := SplitOnce(s.split1, s.box1.bet))
  }

  /** The refund `surrender` credits: half the surrendered box's bet, by Swift
      integer division. */
  function SurrenderRefund(s: GameState): int {
    Quot(SelectedBet(s), 2)
  }

  /** `surrender`: refund half the surrendered box's bet, flag it, and route on
      exactly as `stand` does. */
  function Surrender(s: GameState): (r: GameState)
    ensures s.phase != Playing ==> r == s
    ensures s.phase == Playing ==>
              r.wager.bankroll == s.wager.bankroll + SurrenderRefund(s) &&
              r.phase == Stand(s).phase && r.activeBox == Stand(s).activeBox &&
              r.box1.complete == Stand(s).box1.complete && r.box2.complete == Stand(s).box2.complete
    ensures s.phase == Playing && OnSecondBox(s) ==>
              r.box2.hasSurrendered && r.box1.hasSurrendered == s.box1.hasSurrendered
    ensures s.phase == Playing && !OnSecondBox(s) ==>
              r.box1.hasSurrendered && r.box2.hasSurrendered == s.box2.hasSurrendered
    ensures r == s.(wager := s.wager.(bankroll := r.wager.bankroll), phase := r.phase,
                    activeBox := r.activeBox,
                    box1 := s.box1.(hasSurrendered := r.box1.hasSurrendered, complete := r.box1.complete),
                    box2 := s.box2.(hasSurrendered := r.box2.hasSurrendered, complete := r.box2.complete))
  {
    if s.phase != Playing then s
    else if s.mode == TwoHands then
      if !OnSecondBox(s) then
        if !s.box2.complete then
          s.(box1 := s.box1.(hasSurrendered := true, complete := true),
             wager := s.wager.(bankroll := s.wager.bankroll + Quot(s.box1.bet, 2)), activeBox := 2)
        else
          s.(box1 := s.box1.(hasSurrendered := true, complete := true),
             wager := s.wager.(bankroll := s.wager.bankroll + Quot(s.box1.bet, 2)), phase := Dealer)
      else
        if !s.box1.complete then
          s.(box2 := s.box2.(hasSurrendered := true, complete := true),
             wager := s.wager.(bankroll := s.wager.bankroll + Quot(s.box2.bet, 2)), activeBox := 1)
        else
          s.(box2 := s.box2.(hasSurrendered := true, complete := true),
             wager := s.wager.(bankroll := s.wager.bankroll + Quot(s.box2.bet, 2)), phase := Dealer)
    else
      s.(box1 := s.box1.(hasSurrendered := true),
         wager := s.wager.(bankroll := s.wager.bankroll + Quot(s.box1.bet, 2)), phase := Dealer)
  }

  /** The premium `takeInsurance` asks: half the current bet, by Swift integer division. */
  function InsurancePremium(s: GameState): int {
    Quot(CurrentBet(s), 2)
  }

  /** Whether `takeInsurance`'s guards let it through. */
  predicate InsuranceAccepted(s: GameState) {
    s.phase == Playing && !s.wager.hasInsurance && 0 < InsurancePremium(s) <= s.wager.bankroll
  }

  /** `takeInsurance`: once per round, debit half the current bet when the
      bankroll covers it. The phase does not change. */
  function TakeInsurance(s: GameState): (r: GameState)
    ensures !InsuranceAccepted(s) ==> r == s
    ensures s.wager.hasInsurance ==> r == s
    ensures InsuranceAccepted(s) ==>
              r == s.(wager := s.wager.(bankroll := s.wager.bankroll - InsurancePremium(s),
                                        insuranceBet := InsurancePremium(s), hasInsurance := true))
    ensures r.phase == s.phase
    ensures s.wager.bankroll >= 0 ==> r.wager.bankroll >= 0
  {
    if !InsuranceAccepted(s) then s
    else
      s.(wager := s.wager.(bankroll := s.wager.bankroll - InsurancePremium(s),
                           insuranceBet := InsurancePremium(s), hasInsurance := true))
  }

  // ---------------------------------------------------------------------------
  // Round completion, statistics and streak

  /** The `switch outcome` of `updateStats`. */
  function Classify(outcome: string): (o: Outcome)
    ensures o == Win <==> outcome == "win"
    ensures o == Blackjack <==> outcome == "blackjack"
    ensures o == Lose <==> outcome == "lose"
    ensures o == Push <==> outcome == "push"
  {
    if outcome == "win" then Win
    else if outcome == "blackjack" then Blackjack
    else if outcome == "lose" then Lose
    else if outcome == "push" then Push
    else Other
  }

  /** The label the caller passes for a recognised outcome. */
  function Label(o: Outcome): (text: string)
    requires o != Other
    ensures Classify(text) == o
  {
    match o
    case Win => "win"
    case Blackjack => "blackjack"
    case Lose => "lose"
    case Push => "push"
  }

  /** `updateStreak(type:)`. A repeat of the streak's type (or a first outcome)
      moves a win streak up and a loss streak down and leaves a push streak's
      value unchanged; any change of type restarts at +1 for a win and -1 for
      anything else, a push included. `t` is never `NoStreak`. */
  function StreakAfter(s: Streak, t: StreakType): (r: Streak)
    requires t != NoStreak
    ensures r.kind == t
    ensures (s.kind == t || s.kind == NoStreak) && t == WinStreak ==> r.current == s.current + 1
    ensures (s.kind == t || s.kind == NoStreak) && t == LoseStreak ==> r.current == s.current - 1
    ensures (s.kind == t || s.kind == NoStreak) && t == PushStreak ==> r.current == s.current
    ensures s.kind != t && s.kind != NoStreak ==> r.current == (if t == WinStreak then 1 else -1)
    ensures StreakConsistent(s) ==> StreakConsistent(r)
  {
    if t == s.kind || s.kind == NoStreak then
      Streak(if t == WinStreak then s.current + 1 else if t == LoseStreak then s.current - 1 else s.current, t)
    else
      Streak(if t == WinStreak then 1 else -1, t)
  }

  /** The streak-celebration sound request after `updateStreak(type:)`. */
  predicate Celebrates(after: Streak, t: StreakType) {
    (after.current >= 3 || after.current <= -3) && t != PushStreak
  }

  /** The streak type an outcome feeds to `updateStreak`, if any. */
  function StreakTypeOf(o: Outcome): (t: StreakType)
    ensures t == NoStreak <==> o == Other
    ensures t == WinStreak <==> o == Win || o == Blackjack
    ensures t == LoseStreak <==> o == Lose
  {
    match o
    case Win => WinStreak
    case Blackjack => WinStreak
    case Lose => LoseStreak
    case Push => PushStreak
    case Other => NoStreak
  }

  /** The statistics part of `updateStats`. */
  function RecordOutcome(st: Statistics, o: Outcome, winAmount: int): (r: Statistics)
    ensures r.handsPlayed == st.handsPlayed + 1
    ensures r.wins == st.wins + (if o == Win || o == Blackjack then 1 else 0)
    ensures r.blackjacks == st.blackjacks + (if o == Blackjack then 1 else 0)
    ensures r.losses == st.losses + (if o == Lose then 1 else 0)
    ensures r.pushes == st.pushes + (if o == Push then 1 else 0)
    ensures r.totalWon == st.totalWon + (if o == Win || o == Blackjack then winAmount else 0)
    ensures r.totalLost == st.totalLost + (if o == Lose then (if winAmount < 0 then -winAmount else winAmount) else 0)
    ensures (o == Win || o == Blackjack) ==>
              r.biggestWin >= winAmount && r.biggestWin >= st.biggestWin &&
              (r.biggestWin == winAmount || r.biggestWin == st.biggestWin)
    ensures !(o == Win || o == Blackjack) ==> r.biggestWin == st.biggestWin
    ensures o == Other ==> r == st.(handsPlayed := st.handsPlayed + 1)
    ensures StatsConsistent(st) ==> StatsConsistent(r)
  {
    match o
    case Win =>
      st.(handsPlayed := st.handsPlayed + 1, wins := st.wins + 1, totalWon := st.totalWon + winAmount,
          biggestWin := if st.biggestWin >= winAmount then st.biggestWin else winAmount)
    case Blackjack =>
      st.(handsPlayed := st.handsPlayed + 1, wins := st.wins + 1, totalWon := st.totalWon + winAmount,
          biggestWin := if st.biggestWin >= winAmount then st.biggestWin else winAmount,
          blackjacks := st.blackjacks + 1)
    case Lose =>
      st.(handsPlayed := st.handsPlayed + 1, losses := st.losses + 1,
          totalLost := st.totalLost + (if winAmount < 0 then -winAmount else winAmount))
    case Push => st.(handsPlayed := st.handsPlayed + 1, pushes := st.pushes + 1)
    case Other => st.(handsPlayed := st.handsPlayed + 1)
  }

  /** The streak after `updateStats` saw `outcome`: unchanged for an unrecognised one. */
  function StreakAfterOutcome(s: Streak, outcome: string): (r: Streak)
    ensures Classify(outcome) == Other ==> r == s
    ensures Classify(outcome) != Other ==> r == StreakAfter(s, StreakTypeOf(Classify(outcome)))
    ensures StreakConsistent(s) ==> StreakConsistent(r)
  {
    var o := Classify(outcome);
    if o == Other then s else StreakAfter(s, StreakTypeOf(o))
  }

  /** `updateStats(outcome:winAmount:)`: record the outcome and, for a recognised
      one, update the streak; nothing else changes. */
  function UpdateStats(s: GameState, outcome: string, winAmount: int): (r: GameState)
    ensures r.stats == RecordOutcome(s.stats, Classify(outcome), winAmount)
    ensures r.streak == StreakAfterOutcome(s.streak, outcome)
    ensures r == s.(stats := r.stats, streak := r.streak)
  {
    s.(stats := RecordOutcome(s.stats, Classify(outcome), winAmount),
       streak := StreakAfterOutcome(s.streak, outcome))
  }

  /** Whether a round completed with `outcome` requests the streak celebration. */
  predicate CompletionCelebrates(s: GameState, outcome: string) {
    var o := Classify(outcome);
    o != Other && Celebrates(StreakAfter(s.streak, StreakTypeOf(o)), StreakTypeOf(o))
  }

  /** The part of `completeRound` before statistics: enter the result phase, credit
      the win, and record outcome and amount on the active box (two-hands mode)
      or the outcome as the status (otherwise). */
  function Settled(s: GameState, outcome: string, winAmount: int): (r: GameState)
    ensures r.phase == Result && r.wager.bankroll == s.wager.bankroll + winAmount
    ensures r.stats == s.stats && r.streak == s.streak && r.session == s.session
    ensures s.mode == TwoHands && !OnSecondBox(s) ==>
              r.results1.first == outcome && r.box1.winAmount == winAmount
    ensures OnSecondBox(s) ==> r.results1.second == outcome && r.box2.winAmount == winAmount
    ensures s.mode != TwoHands ==> r.box1.status == outcome
  {
    if s.mode == TwoHands then
      if !OnSecondBox(s) then
        s.(phase := Result, results1 := s.results1.(first := outcome),
           box1 := s.box1.(winAmount := winAmount),
           wager := s.wager.(bankroll := s.wager.bankroll + winAmount))
      else
        s.(phase := Result, results1 := s.results1.(second := outcome),
           box2 := s.box2.(winAmount := winAmount),
           wager := s.wager.(bankroll := s.wager.bankroll + winAmount))
    else
      s.(phase := Result, box1 := s.box1.(status := outcome),
         wager := s.wager.(bankroll := s.wager.bankroll + winAmount))
  }

  /** `completeRound(outcome:winAmount:)`: from any phase, settle the round: credit
      the win amount, record the outcome, update statistics and streak, and count
      the round. */
  function CompleteRound(s: GameState, outcome: string, winAmount: int): (r: GameState)
    ensures r.phase == Result
    ensures r.wager.bankroll == s.wager.bankroll + winAmount
    ensures r.session.roundNumber == s.session.roundNumber + 1
    ensures r.stats == RecordOutcome(s.stats, Classify(outcome), winAmount)
    ensures r.streak == StreakAfterOutcome(s.streak, outcome)
    ensures s.mode == TwoHands && !OnSecondBox(s) ==>
              r.results1.first == outcome && r.box1.winAmount == winAmount &&
              r.results1.second == s.results1.second && r.box1.status == s.box1.status &&
              r.box2 == s.box2
    ensures OnSecondBox(s) ==>
              r.results1.second == outcome && r.box2.winAmount == winAmount &&
              r.results1.first == s.results1.first && r.box1 == s.box1
    ensures s.mode != TwoHands ==>
              r.box1.status == outcome && r.box1.winAmount == s.box1.winAmount &&
              r.results1 == s.results1 && r.box2 == s.box2
    ensures r == s.(phase := Result, wager := s.wager.(bankroll := r.wager.bankroll),
                    session := s.session.(roundNumber := r.session.roundNumber),
                    stats := r.stats, streak := r.streak,
                    results1 := s.results1.(first := r.results1.first, second := r.results1.second),
                    box1 := s.box1.(status := r.box1.status, winAmount := r.box1.winAmount),
                    box2 := s.box2.(winAmount := r.box2.winAmount))
  {
    var t := Settled(s, outcome, winAmount);
    t.(stats := RecordOutcome(s.stats, Classify(outcome), winAmount),
       streak := StreakAfterOutcome(s.streak, outcome),
       session := s.session.(roundNumber := s.session.roundNumber + 1))
  }

  /** `resetGame`: back to setup with no bankroll, no last bet and fresh
      statistics, then a round reset. The streak and the bet history survive. */
  function ResetGame(s: GameState): (r: GameState)
    ensures r.phase == Setup && !r.session.gameStarted && r.session.roundNumber == 0
    ensures r.wager.bankroll == 0 && r.box1.bet == 0 && r.wager.lastBet == 0
    ensures r.stats == FreshStatistics()
    ensures RoundCleared(r)
    ensures r.streak == s.streak && r.wager.betHistory == s.wager.betHistory
    ensures r.mode == s.mode && r.table.players == s.table.players && r.wager.autoRebet == s.wager.autoRebet
    ensures r.twoHandsMode == s.twoHandsMode && r.table.multiPlayerMode == s.table.multiPlayerMode
    ensures r.table.activePlayerIndex == s.table.activePlayerIndex
    ensures r.box1.winAmount == s.box1.winAmount && r.box2.winAmount == s.box2.winAmount
    ensures r.split1.originalBet == s.split1.originalBet && r.split2.originalBet == s.split2.originalBet
    ensures SameSession(s.(session := s.session.(gameStarted := false, roundNumber := 0), phase := Setup,
                           wager := s.wager.(bankroll := 0, lastBet := 0), stats := FreshStatistics()), r)
  {
    ResetRound(s.(session := s.session.(gameStarted := false, roundNumber := 0), phase := Setup,
                  wager := s.wager.(bankroll := 0, lastBet := 0),
                  box1 := s.box1.(bet := 0), stats := FreshStatistics()))
  }
}
