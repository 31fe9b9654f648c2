/** The pure table helpers of the poker screen (PokerGameView.swift): blind
    positions derived from the dealer button, street ordering, how many board
    cards are face up, and the money figures the betting controls display.
    The poker engine's own state (street, dealer index, burn-card gate, seats,
    pot, table bet, raise ladder) is taken as plain input. */
module PokerTable {
  import opened SwiftInt
  import opened Player

  datatype Street = Preflop | Flop | Turn | River

  // ---------------------------------------------------------------------------
  // Blind positions

  /** Seat of the small blind for `n` seats: the dealer itself heads-up, the
      seat after the dealer otherwise; 0 for a table of fewer than two seats. */
  function SBIndex(n: nat, dealerIndex: int): (i: int)
    ensures n < 2 ==> i == 0
    ensures n == 2 ==> i == dealerIndex
    ensures n > 2 && dealerIndex >= 0 ==> i == (dealerIndex + 1) % n
  {
    if n < 2 then 0
    else if n == 2 then dealerIndex
    else Rem(dealerIndex + 1, n)
  }

  /** Seat of the big blind for `n` seats: the seat after the dealer heads-up,
      two after the dealer otherwise; 1 for a table of fewer than two seats. */
  function BBIndex(n: nat, dealerIndex: int): (i: int)
    ensures n < 2 ==> i == 1
    ensures n == 2 && dealerIndex >= 0 ==> i == (dealerIndex + 1) % 2
    ensures n > 2 && dealerIndex >= 0 ==> i == (dealerIndex + 2) % n
  {
    if n < 2 then 1
    else if n == 2 then Rem(dealerIndex + 1, n)
    else Rem(dealerIndex + 2, n)
  }

  /** With at least two seats and the button on a seat, both blinds sit on real,
      different seats, and the big blind is the seat right after the small blind. */
  lemma BlindsOnDistinctSeats(n: nat, dealerIndex: int)
    requires n >= 2 && 0 <= dealerIndex < n
    ensures 0 <= SBIndex(n, dealerIndex) < n
    ensures 0 <= BBIndex(n, dealerIndex) < n
    ensures SBIndex(n, dealerIndex) != BBIndex(n, dealerIndex)
    ensures BBIndex(n, dealerIndex) == (SBIndex(n, dealerIndex) + 1) % n
  {
    var d := dealerIndex;
    if n == 2 {
      assert d == 0 || d == 1;
    } else if d + 2 < n {
      assert (d + 1) % n == d + 1;
      assert (d + 2) % n == d + 2;
    } else if d + 2 == n {
      assert (d + 1) % n == d + 1;
      assert (d + 2) % n == 0;
    } else {
      assert d == n - 1;
      assert (d + 1) % n == 0;
      assert (d + 2) % n == 1;
    }
  }

  /** Heads-up, the dealer posts the small blind; with three or more seats the
      button posts neither blind. */
  lemma DealerAndBlinds(n: nat, dealerIndex: int)
    requires n >= 2 && 0 <= dealerIndex < n
    ensures n == 2 ==> SBIndex(n, dealerIndex) == dealerIndex
    ensures n > 2 ==> SBIndex(n, dealerIndex) != dealerIndex && BBIndex(n, dealerIndex) != dealerIndex
  {
    var d := dealerIndex;
    if n > 2 {
      if d + 2 < n {
        assert (d + 1) % n == d + 1 && (d + 2) % n == d + 2;
      } else if d + 2 == n {
        assert (d + 1) % n == d + 1 && (d + 2) % n == 0;
      } else {
        assert (d + 1) % n == 0 && (d + 2) % n == 1;
      }
    }
  }

  /** A table of fewer than two seats has no big-blind seat: the index returned
      names no seat (and for an empty table the small-blind index names none either). */
  lemma ShortTableBlinds(n: nat, dealerIndex: int)
    requires n < 2
    ensures !(0 <= BBIndex(n, dealerIndex) < n)
    ensures n == 0 ==> !(0 <= SBIndex(n, dealerIndex) < n)
  {
  }

  // ---------------------------------------------------------------------------
  // Streets and the board

  /** The betting streets in the order they are dealt. */
  const StreetOrder: seq<Street> := [Preflop, Flop, Turn, River]

  /** Position of `s` in `StreetOrder` (the `firstIndex(of:)` lookup). */
  function StreetPosition(s: Street): (k: nat)
    ensures k < |StreetOrder| && StreetOrder[k] == s
    ensures forall j :: 0 <= j < k ==> StreetOrder[j] != s
  {
    match s
    case Preflop => 0
    case Flop => 1
    case Turn => 2
    case River => 3
  }

  /** The street before `s` in `StreetOrder`, with preflop standing for itself. */
  function StreetBefore(s: Street): (b: Street)
    ensures s == Preflop ==> b == Preflop
    ensures s != Preflop ==> StreetPosition(b) + 1 == StreetPosition(s)
  {
    var k := StreetPosition(s);
    if k > 0 then StreetOrder[k - 1] else Preflop
  }

  /** `StreetBefore` steps one place back in the order, and stops at preflop. */
  lemma StreetBeforeTable()
    ensures StreetBefore(Flop) == Preflop
    ensures StreetBefore(Turn) == Flop
    ensures StreetBefore(River) == Turn
    ensures StreetBefore(Preflop) == Preflop
    ensures forall s :: s != Preflop ==> StreetPosition(StreetBefore(s)) + 1 == StreetPosition(s)
  {
  }

  /** Community cards face up once a street's burn has been acknowledged
      (the `streetCards` table; with the four streets of `Street` every
      street has an entry, so its `?? 0` fallback is never taken). */
  function StreetCards(s: Street): (c: nat)
    ensures c <= 5
    ensures c == 0 <==> s == Preflop
  {
    match s
    case Preflop => 0
    case Flop => 3
    case Turn => 4
    case River => 5
  }

  /** The table gives 0, 3, 4, 5 and grows strictly along the street order. */
  lemma StreetCardsTable()
    ensures StreetCards(Preflop) == 0 && StreetCards(Flop) == 3
    ensures StreetCards(Turn) == 4 && StreetCards(River) == 5
    ensures forall s, t :: StreetPosition(s) < StreetPosition(t) ==> StreetCards(s) < StreetCards(t)
  {
  }

  /** Board cards shown: while a burn card is pending the new street's cards are
      still hidden, so the previous street's count is shown. */
  function RevealedCount(street: Street, burnCardPending: bool): (c: nat)
    ensures c <= 5
    ensures c == 0 || c >= 3
    ensures c <= StreetCards(street)
    ensures !burnCardPending ==> c == StreetCards(street)
    ensures burnCardPending && street != Preflop ==> c < StreetCards(street)
  {
    if burnCardPending then StreetCards(StreetBefore(street)) else StreetCards(street)
  }

  /** Whether board slot `index` shows a card. */
  function CardSlotDealt(index: int, street: Street, burnCardPending: bool): (dealt: bool)
    ensures !burnCardPending ==> (dealt <==> index < StreetCards(street))
    ensures burnCardPending ==> (dealt <==> index < StreetCards(StreetBefore(street)))
  {
    index < RevealedCount(street, burnCardPending)
  }

  /** The face-up slots of the five-slot board are a prefix: slot `i` is up
      whenever a later slot is, and at most five are up. */
  lemma DealtSlotsArePrefix(street: Street, burnCardPending: bool, i: int, j: int)
    requires 0 <= i <= j
    ensures CardSlotDealt(j, street, burnCardPending) ==> CardSlotDealt(i, street, burnCardPending)
    ensures !CardSlotDealt(5, street, burnCardPending)
  {
  }

  /** Acknowledging the burn never hides a card: the pending count on a street
      is exactly the settled count of the street before. */
  lemma BurnGateShowsPreviousStreet(street: Street)
    ensures RevealedCount(street, true) == RevealedCount(StreetBefore(street), false)
    ensures RevealedCount(street, true) <= RevealedCount(street, false)
  {
  }

  // ---------------------------------------------------------------------------
  // Money shown by the betting controls

  /** Amount the acting seat owes to match the table bet. */
  function ToCall(currentBet: int, seatBet: int): (owed: int)
    ensures owed >= 0
    ensures owed == 0 <==> seatBet >= currentBet
    ensures owed > 0 ==> seatBet + owed == currentBet
  {
    if currentBet - seatBet > 0 then currentBet - seatBet else 0
  }

  /** Amount the call button offers: what is owed, capped by the seat's bankroll. */
  function CallAmount(toCall: int, bankroll: int): (amount: int)
    ensures amount <= bankroll && amount <= toCall
    ensures amount == toCall || amount == bankroll
  {
    if toCall < bankroll then toCall else bankroll
  }

  /** A seat that offers a short call is one whose call puts it all in. */
  lemma ShortCallIsAllIn(currentBet: int, seatBet: int, bankroll: int)
    requires bankroll >= 0
    ensures 0 <= CallAmount(ToCall(currentBet, seatBet), bankroll)
    ensures CallAmount(ToCall(currentBet, seatBet), bankroll) < ToCall(currentBet, seatBet)
            ==> CallAmount(ToCall(currentBet, seatBet), bankroll) == bankroll
  {
  }

  /** Sum of the seats' current bets (the `reduce(0) { $0 + $1.bet }` fold, seat by seat). */
  function SumBets(players: seq<PokerPlayer>): int
  {
    if players == [] then 0 else SumBets(players[..|players| - 1]) + players[|players| - 1].bet
  }

  /** The pot figure displayed: the settled pot plus every seat's bet in front of it. */
  function DisplayedPot(pot: int, players: seq<PokerPlayer>): (shown: int)
    ensures (forall i :: 0 <= i < |players| ==> players[i].bet >= 0) ==> shown >= pot
  {
    BetsNonNegative(players);
    pot + SumBets(players)
  }

  /** With no seat's bet negative, the bets add up to a non-negative amount. */
  lemma {:induction false} BetsNonNegative(players: seq<PokerPlayer>)
    ensures (forall i :: 0 <= i < |players| ==> players[i].bet >= 0) ==> SumBets(players) >= 0
  {
    if players != [] {
      var init := players[..|players| - 1];
      assert forall i :: 0 <= i < |init| ==> init[i] == players[i];
      BetsNonNegative(init);
    }
  }

  /** The sum over two runs of seats is the sum of their sums. */
  lemma {:induction false} SumBetsAppend(a: seq<PokerPlayer>, b: seq<PokerPlayer>)
    ensures SumBets(a + b) == SumBets(a) + SumBets(b)
    decreases |b|
  {
    if b != [] {
      var c := a + b;
      assert c[..|c| - 1] == a + b[..|b| - 1];
      SumBetsAppend(a, b[..|b| - 1]);
    } else {
      assert a + b == a;
    }
  }

  /** Changing one seat's bet changes the displayed pot by exactly the same amount:
      chips moved from a bankroll into a bet show up in the pot figure one for one. */
  lemma {:induction false} DisplayedPotTracksSeatBet(pot: int, players: seq<PokerPlayer>, i: nat, p: PokerPlayer)
    requires i < |players|
    ensures DisplayedPot(pot, players[i := p]) == DisplayedPot(pot, players) - players[i].bet + p.bet
  {
    var before, after := players[..i], players[i + 1..];
    assert players == before + [players[i]] + after;
    assert players[i := p] == before + [p] + after;
    SumBetsAppend(before + [players[i]], after);
    SumBetsAppend(before + [p], after);
    SumBetsAppend(before, [players[i]]);
    SumBetsAppend(before, [p]);
    assert SumBets([players[i]]) == players[i].bet by {
      assert [players[i]][..0] == [];
    }
    assert SumBets([p]) == p.bet by {
      assert [p][..0] == [];
    }
  }

  // ---------------------------------------------------------------------------
  // Which controls are offered

  /** The all-in button appears only for a seat with chips left. */
  function OffersAllIn(bankroll: int): (shown: bool)
    ensures shown <==> bankroll > 0
  {
    bankroll > 0
  }

  /** The raise chips shown: the first six of the engine's suggested raises, and
      none when the seat cannot put in more than it owes. */
  function RaiseChips<T>(raises: seq<T>, bankroll: int, toCall: int): (shown: seq<T>)
    ensures |shown| <= 6 && |shown| <= |raises|
    ensures shown == raises[..|shown|]
    ensures bankroll <= toCall ==> shown == []
    ensures bankroll > toCall ==> |shown| == if |raises| < 6 then |raises| else 6
  {
    if bankroll > toCall then (if |raises| < 6 then raises else raises[..6]) else []
  }

  /** Raise chips are only ever shown beside the all-in button: a seat with
      raise chips offered, owing nothing negative, has chips left. */
  lemma RaiseChipsBesideAllIn<T>(raises: seq<T>, bankroll: int, toCall: int)
    requires toCall >= 0
    ensures RaiseChips(raises, bankroll, toCall) != [] ==> OffersAllIn(bankroll)
    ensures !OffersAllIn(bankroll) ==> RaiseChips(raises, bankroll, toCall) == []
  {
  }
}
