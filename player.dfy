/** The seat records of Player.swift: a poker seat, a multiplayer blackjack seat,
    and the per-seat statistics, with the values their initialisers give them.
    Seat identities (a fresh UUID per seat) are not modelled. */
module Player {

  /** Per-seat statistics; every counter starts at 0. */
  datatype PlayerStats = PlayerStats(
    handsWon: int, handsLost: int, handsTied: int,
    wins: int, losses: int, pushes: int, blackjacks: int,
    totalWon: int, totalLost: int, biggestWin: int, handsPlayed: int)

  /** A poker seat. */
  datatype PokerPlayer = PokerPlayer(
    name: string, bankroll: int, totalBuyIn: int, bet: int, roundContribution: int,
    acted: bool, stats: PlayerStats, folded: bool, isAllIn: bool)

  /** A multiplayer blackjack seat, with its own split bookkeeping. */
  datatype BlackjackPlayer = BlackjackPlayer(
    name: string, bankroll: int, bet: int, status: string,
    isDoubleDown: bool, hasSurrendered: bool,
    isSplit: bool, splitCount: int, splitBet: int, splitBet2: int, splitBet3: int,
    activeHand: int,
    hand1Result: string, hand2Result: string, hand3Result: string, hand4Result: string,
    splitOriginalBet: int,
    split1DD: bool, split2DD: bool, split3DD: bool, split4DD: bool,
    winAmount: int, handComplete: bool, hasInsurance: bool, insuranceBet: int,
    stats: PlayerStats)

  /** Every counter of `s` is zero. */
  predicate StatsCleared(s: PlayerStats) {
    s.handsWon == 0 && s.handsLost == 0 && s.handsTied == 0 &&
    s.wins == 0 && s.losses == 0 && s.pushes == 0 && s.blackjacks == 0 &&
    s.totalWon == 0 && s.totalLost == 0 && s.biggestWin == 0 && s.handsPlayed == 0
  }

  /** `PlayerStats()` with its default member values. */
  function NewPlayerStats(): (s: PlayerStats)
    ensures StatsCleared(s)
  {
    PlayerStats(0, 0, 0, 0, 0, 0, 0, 0, 0, 0, 0)
  }

  /** A poker seat that holds no chips in front of it and has taken no action. */
  predicate AwaitingDeal(p: PokerPlayer) {
    p.bet == 0 && p.roundContribution == 0 && !p.acted && !p.folded && !p.isAllIn
  }

  /** `PokerPlayer(name:bankroll:)`. */
  function NewPokerPlayer(name: string, bankroll: int): (p: PokerPlayer)
    ensures p.name == name
    ensures p.bankroll == bankroll && p.totalBuyIn == bankroll
    ensures AwaitingDeal(p)
    ensures StatsCleared(p.stats)
  {
    PokerPlayer(name, bankroll, bankroll, 0, 0, false, NewPlayerStats(), false, false)
  }

  /** The split bookkeeping of a seat: at most three splits, the active hand is the
      newest one, and only the slots of splits that happened hold a bet. */
  predicate SplitBookkept(p: BlackjackPlayer) {
    0 <= p.splitCount <= 3 &&
    p.activeHand == p.splitCount + 1 &&
    (p.isSplit <==> p.splitCount > 0) &&
    (p.splitCount < 1 ==> p.splitBet == 0) &&
    (p.splitCount < 2 ==> p.splitBet2 == 0) &&
    (p.splitCount < 3 ==> p.splitBet3 == 0)
  }

  /** A blackjack seat with no wager, no side bet and no outcome recorded. */
  predicate SeatCleared(p: BlackjackPlayer) {
    p.bet == 0 && p.status == "" &&
    !p.isDoubleDown && !p.hasSurrendered &&
    p.splitBet == 0 && p.splitBet2 == 0 && p.splitBet3 == 0 && p.splitOriginalBet == 0 &&
    p.hand1Result == "" && p.hand2Result == "" && p.hand3Result == "" && p.hand4Result == "" &&
    !p.split1DD && !p.split2DD && !p.split3DD && !p.split4DD &&
    p.winAmount == 0 && !p.handComplete && !p.hasInsurance && p.insuranceBet == 0
  }

  /** `BlackjackPlayer(name:bankroll:)`. */
  function NewBlackjackPlayer(name: string, bankroll: int): (p: BlackjackPlayer)
    ensures p.name == name && p.bankroll == bankroll
    ensures p.splitCount == 0 && !p.isSplit && p.activeHand == 1
    ensures SeatCleared(p)
    ensures SplitBookkept(p)
    ensures StatsCleared(p.stats)
  {
    BlackjackPlayer(
      name, bankroll, 0, "",
      false, false,
      false, 0, 0, 0, 0,
      1,
      "", "", "", "",
      0,
      false, false, false, false,
      0, false, false, 0,
      NewPlayerStats())
  }

  /** Series statistics of a poker game: series and hands won and lost. */
  datatype SeriesStats = SeriesStats(seriesWins: int, seriesLosses: int, handsWon: int, handsLost: int)

  /** `SeriesStats()` with its default member values: nothing won or lost yet. */
  function NewSeriesStats(): (s: SeriesStats)
    ensures s.seriesWins == 0 && s.seriesLosses == 0 && s.handsWon == 0 && s.handsLost == 0
  {
    SeriesStats(0, 0, 0, 0)
  }
}
