/**
 * The blackjack variant: cards are plain values 1..10 (no suits, no special
 * ace), the player draws until standing or passing 21, the bot then draws
 * while its total is below 17, and the hand settles at ±bet or 0.
 */
module Blackjack {
  import opened Balances

  type Card = c: int | 1 <= c <= 10 witness 1

  /** `sum(cards)`. */
  function Total(cards: seq<Card>): (t: int)
    ensures |cards| <= t <= 10 * |cards|
  {
    if cards == [] then 0 else Total(cards[..|cards| - 1]) + cards[|cards| - 1]
  }

  lemma TotalAppend(cards: seq<Card>, c: Card)
    ensures Total(cards + [c]) == Total(cards) + c
  {
    assert (cards + [c])[..|cards|] == cards;
  }

  /**
   * The bot's hand after the dealer loop of `finish`: while the total is
   * below 17, append the next draw of the random source (`draws(next)`,
   * `draws(next + 1)`, ...).
   */
  function DealerHand(cards: seq<Card>, draws: nat -> Card, next: nat): (r: seq<Card>)
    ensures |cards| <= |r| && r[..|cards|] == cards
    ensures forall i :: |cards| <= i < |r| ==> r[i] == draws(next + i - |cards|)
    ensures Total(cards) >= 17 ==> r == cards
    ensures Total(cards) < 17 ==> 17 <= Total(r) <= 26
    decreases 17 - Total(cards)
  {
    if Total(cards) >= 17 then cards
    else
      TotalAppend(cards, draws(next));
      DealerHand(cards + [draws(next)], draws, next + 1)
  }

  /**
   * The dealer stops at the first total of 17 or more: every hand it held
   * before its last draw was below 17.
   */
  lemma {:induction false} DealerStopsAtFirst17(cards: seq<Card>, draws: nat -> Card, next: nat)
    ensures var r := DealerHand(cards, draws, next);
      forall k :: |cards| <= k < |r| ==> Total(r[..k]) < 17
    decreases 17 - Total(cards)
  {
    if Total(cards) < 17 {
      var c' := cards + [draws(next)];
      TotalAppend(cards, draws(next));
      var r := DealerHand(cards, draws, next);
      assert r == DealerHand(c', draws, next + 1);
      DealerStopsAtFirst17(c', draws, next + 1);
      forall k | |cards| <= k < |r|
        ensures Total(r[..k]) < 17
      {
        if k == |cards| {
          assert r[..k] == r[..|c'|][..k] == cards;
        }
      }
    }
  }

  /** Starting from two cards, the dealer always stops with a total in 17..26. */
  lemma DealerStopsIn17To26(cards: seq<Card>, draws: nat -> Card)
    requires |cards| == 2
    ensures 17 <= Total(DealerHand(cards, draws, 0)) <= 26
  {
    assert cards[..1] == [cards[0]] && [cards[0]][..0] == [];
  }

  /** How a finished hand ends. */
  datatype Verdict = Bust | PlayerWins | DealerWins | Push

  /** The settlement branch of `finish`, from the two totals. */
  function Decide(player: int, dealer: int): (v: Verdict)
    ensures v == Bust <==> player > 21
    ensures v == Push ==> player == dealer
    ensures dealer > 21 && player <= 21 ==> v == PlayerWins
  {
    if player > 21 then Bust
    else if dealer > 21 || player > dealer then PlayerWins
    else if player < dealer then DealerWins
    else Push
  }

  /** The balance change of a verdict. */
  function Delta(v: Verdict, bet: int): int {
    match v
    case Bust => -bet
    case PlayerWins => bet
    case DealerWins => -bet
    case Push => 0
  }

  /**
   * The settlement table: a bust player loses even when the dealer busts
   * too; otherwise a dealer bust or a higher total wins, a lower total
   * loses and equal totals are a draw.  Between two standing hands the
   * comparison is symmetric.
   */
  lemma DecideTable(player: int, dealer: int, bet: int)
    requires bet > 0
    ensures Delta(Decide(player, dealer), bet) == -bet <==>
              player > 21 || (dealer <= 21 && player < dealer)
    ensures Delta(Decide(player, dealer), bet) == bet <==>
              player <= 21 && (dealer > 21 || player > dealer)
    ensures Delta(Decide(player, dealer), bet) == 0 <==>
              player <= 21 && dealer <= 21 && player == dealer
    ensures player <= 21 && dealer <= 21 ==>
              (Decide(player, dealer) == PlayerWins <==> Decide(dealer, player) == DealerWins)
  {
  }

  /** The example hand: 10+10 against a dealer's 10+7, who stands at once and loses. */
  lemma StandOnTwentyAgainstSeventeen(draws: nat -> Card)
    ensures DealerHand([10, 7], draws, 0) == [10, 7]
    ensures Decide(Total([10, 10]), Total([10, 7])) == PlayerWins
  {
    assert [10, 10][..1] == [10] && [10, 7][..1] == [10];
  }

  /**
   * `BlackjackPlayView`: one player's game with the bot, owned by the user
   * who started it.
   */
  class PlayView {
    const userId: UserId
    const bet: int
    var playerCards: seq<Card>
    var botCards: seq<Card>
    var finished: bool

    /**
     * Two cards each; while the game is open the bot still holds its first
     * two cards and the player has not passed 21; once it is finished the
     * bot's total is 17..26.
     */
    ghost predicate Valid()
      reads this
    {
      && |playerCards| >= 2 && |botCards| >= 2
      && (!finished ==> |botCards| == 2 && Total(playerCards) <= 21)
      && (finished ==> 17 <= Total(botCards) <= 26)
    }

    /** `__init__`: two cards from the random source for each side. */
    constructor (userId: UserId, bet: int, p1: Card, p2: Card, b1: Card, b2: Card)
      ensures Valid()
      ensures this.userId == userId && this.bet == bet
      ensures playerCards == [p1, p2] && botCards == [b1, b2] && !finished
    {
      this.userId := userId;
      this.bet := bet;
      playerCards := [p1, p2];
      botCards := [b1, b2];
      finished := false;
      new;
      assert [p1, p2][..1] == [p1] && [p1][..0] == [];
    }

    /** The dealer loop of `finish`: draw while the bot's total is below 17. */
    method DealerDraws(draws: nat -> Card)
      modifies this`botCards
      ensures botCards == DealerHand(old(botCards), draws, 0)
    {
      var next: nat := 0;
      while Total(botCards) < 17
        invariant DealerHand(botCards, draws, next) == DealerHand(old(botCards), draws, 0)
        decreases 17 - Total(botCards)
      {
        TotalAppend(botCards, draws(next));
        botCards := botCards + [draws(next)];
        next := next + 1;
      }
    }

    /**
     * `finish`: mark the game finished, let the bot draw to 17 or more, and
     * settle: add −bet or +bet to the owner's balance (and save), or leave
     * the ledger alone on a draw.
     */
    method Finish(ledger: Ledger, draws: nat -> Card)
      requires |playerCards| >= 2 && |botCards| == 2
      modifies this, ledger
      ensures Valid() && finished
      ensures playerCards == old(playerCards)
      ensures botCards == DealerHand(old(botCards), draws, 0)
      ensures Decide(Total(playerCards), Total(botCards)) == Push ==>
                ledger.balances == old(ledger.balances) && ledger.persisted == old(ledger.persisted)
      ensures Decide(Total(playerCards), Total(botCards)) != Push ==>
                && ledger.balances == old(ledger.balances)[userId :=
                     old(ledger.GetBalance(userId)) + Delta(Decide(Total(playerCards), Total(botCards)), bet)]
                && ledger.persisted == ledger.balances
    {
      finished := true;
      DealerStopsIn17To26(botCards, draws);
      DealerDraws(draws);
      var playerTotal := Total(playerCards);
      var botTotal := Total(botCards);
      var verdict := Decide(playerTotal, botTotal);
      if verdict != Push {
        ledger.AddBalance(userId, Delta(verdict, bet));
      }
    }

    /**
     * `hit`: refused, changing nothing, for anyone but the owner or once the
     * game is finished; otherwise one card is appended, and passing 21
     * finishes the game.
     */
    method Hit(ledger: Ledger, caller: UserId, card: Card, draws: nat -> Card) returns (accepted: bool)
      requires Valid()
      modifies this, ledger
      ensures Valid()
      ensures accepted == (caller == userId && !old(finished))
      ensures !accepted ==>
                && playerCards == old(playerCards) && botCards == old(botCards) && finished == old(finished)
                && ledger.balances == old(ledger.balances) && ledger.persisted == old(ledger.persisted)
      ensures accepted ==> playerCards == old(playerCards) + [card]
      ensures accepted && Total(playerCards) <= 21 ==>
                && !finished && botCards == old(botCards)
                && ledger.balances == old(ledger.balances) && ledger.persisted == old(ledger.persisted)
      ensures accepted && Total(playerCards) > 21 ==>
                && finished && botCards == DealerHand(old(botCards), draws, 0)
                && ledger.balances == old(ledger.balances)[userId := old(ledger.GetBalance(userId)) - bet]
                && ledger.persisted == ledger.balances
    {
      if caller != userId || finished {
        return false;
      }
      accepted := true;
      playerCards := playerCards + [card];
      if Total(playerCards) > 21 {
        Finish(ledger, draws);
      }
    }

    /**
     * `stand_btn`: refused, changing nothing, for anyone but the owner or
     * once the game is finished; otherwise the game is finished.
     */
    method Stand(ledger: Ledger, caller: UserId, draws: nat -> Card) returns (accepted: bool)
      requires Valid()
      modifies this, ledger
      ensures Valid()
      ensures accepted == (caller == userId && !old(finished))
      ensures !accepted ==>
                && playerCards == old(playerCards) && botCards == old(botCards) && finished == old(finished)
                && ledger.balances == old(ledger.balances) && ledger.persisted == old(ledger.persisted)
      ensures accepted ==>
                && finished && playerCards == old(playerCards)
                && botCards == DealerHand(old(botCards), draws, 0)
      ensures accepted && Decide(Total(playerCards), Total(botCards)) == Push ==>
                ledger.balances == old(ledger.balances) && ledger.persisted == old(ledger.persisted)
      ensures accepted && Decide(Total(playerCards), Total(botCards)) != Push ==>
                && ledger.balances == old(ledger.balances)[userId :=
                     old(ledger.GetBalance(userId)) + Delta(Decide(Total(playerCards), Total(botCards)), bet)]
                && ledger.persisted == ledger.balances
    {
      if caller != userId || finished {
        return false;
      }
      accepted := true;
      finished := true;
      Finish(ledger, draws);
    }
  }

  /**
   * `BlackjackGameView.start_game`: only the panel's owner, with at least
   * `bet` on the balance, opens a game; the ledger is not touched.
   */
  method StartGame(ledger: Ledger, owner: UserId, caller: UserId, bet: int,
                   p1: Card, p2: Card, b1: Card, b2: Card) returns (game: PlayView?)
    requires IsBetChoice(bet)
    ensures (game != null) == (caller == owner && ledger.GetBalance(owner) >= bet)
    ensures game != null ==>
              && fresh(game) && game.Valid()
              && game.userId == owner && game.bet == bet
              && game.playerCards == [p1, p2] && game.botCards == [b1, b2] && !game.finished
  {
    if caller != owner || ledger.GetBalance(owner) < bet {
      return null;
    }
    game := new PlayView(owner, bet, p1, p2, b1, b2);
  }
}
