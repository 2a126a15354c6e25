/**
 * The slot machine: three reels over a five-symbol alphabet, judged into
 * a jackpot (all three equal), a hit (some pair equal) or a miss.
 */
module Slot {
  import opened Balances

  /** The reel alphabet: cherry, lemon, bell, star, seven. */
  datatype Symbol = Cherry | Lemon | Bell | Star | Seven

  datatype SlotOutcome =
    | NotYourPanel
    | BalanceTooLow
    | Spun(reels: seq<Symbol>, delta: int)

  /** The random source's shape: three spin frames of three symbols each. */
  predicate WellFormedFrames(frames: seq<seq<Symbol>>) {
    |frames| == 3 && forall i :: 0 <= i < 3 ==> |frames[i]| == 3
  }

  /**
   * The spinning animation draws a fresh frame of three symbols three
   * times; frame `i` contributes its `i`-th symbol to the final reels.
   */
  method Reels(frames: seq<seq<Symbol>>) returns (result: seq<Symbol>)
    requires WellFormedFrames(frames)
    ensures |result| == 3
    ensures forall i :: 0 <= i < 3 ==> result[i] == frames[i][i]
  {
    result := [];
    for i := 0 to 3
      invariant |result| == i
      invariant forall j :: 0 <= j < i ==> result[j] == frames[j][j]
    {
      result := result + [frames[i][i]];
    }
  }

  /** The symbols that occur on the reels. */
  function Kinds(r: seq<Symbol>): set<Symbol>
    requires |r| == 3
  {
    {r[0], r[1], r[2]}
  }

  /** The balance change for one spin: +10×bet, +2×bet or −bet. */
  function Payout(bet: int, r: seq<Symbol>): (p: int)
    requires |r| == 3
    ensures p == 10 * bet || p == 2 * bet || p == -bet
    ensures r[0] != r[1] && r[1] != r[2] && r[0] != r[2] ==> p == -bet
    ensures r[0] == r[1] == r[2] ==> p == 10 * bet
  {
    if r[0] == r[1] && r[1] == r[2] then bet * 10
    else if r[0] == r[1] || r[1] == r[2] || r[0] == r[2] then bet * 2
    else -bet
  }

  /**
   * The payout depends only on how many different symbols show: one kind
   * is the jackpot, two kinds a hit, three kinds a miss.
   */
  lemma PayoutByKinds(bet: int, r: seq<Symbol>)
    requires |r| == 3
    ensures 1 <= |Kinds(r)| <= 3
    ensures |Kinds(r)| == 1 ==> Payout(bet, r) == 10 * bet
    ensures |Kinds(r)| == 2 ==> Payout(bet, r) == 2 * bet
    ensures |Kinds(r)| == 3 ==> Payout(bet, r) == -bet
  {
    var a, b, c := r[0], r[1], r[2];
    if a == b && b == c {
      assert Kinds(r) == {a};
    } else if a == b {
      assert Kinds(r) == {a, c};
    } else if b == c {
      assert Kinds(r) == {a, b};
    } else if a == c {
      assert Kinds(r) == {a, b};
    } else {
      assert Kinds(r) == {a} + {b} + {c};
    }
  }

  /** Reordering the reels does not change the payout. */
  lemma PayoutIgnoresOrder(bet: int, r: seq<Symbol>, r': seq<Symbol>)
    requires |r| == 3 && |r'| == 3
    requires multiset(r) == multiset(r')
    ensures Payout(bet, r) == Payout(bet, r')
  {
    forall x
      ensures x in Kinds(r) <==> x in Kinds(r')
    {
      calc {
        x in Kinds(r);
        x in multiset(r);
        x in multiset(r');
        x in Kinds(r');
      }
    }
    assert Kinds(r) == Kinds(r');
    PayoutByKinds(bet, r);
    PayoutByKinds(bet, r');
  }

  /** A spin the balance check admitted never leaves the player negative. */
  lemma PayoutKeepsNonNegative(balance: int, bet: int, r: seq<Symbol>)
    requires |r| == 3 && bet > 0 && balance >= bet
    ensures balance + Payout(bet, r) >= 0
    ensures Payout(bet, r) == -bet || Payout(bet, r) > 0
  {
  }

  /**
   * `SlotView.handle_bet`: only the panel's owner may play, and only with
   * at least `bet` on the balance; then the reels are judged and the payout
   * is added to the owner's balance (and saved).
   */
  method HandleBet(ledger: Ledger, owner: UserId, caller: UserId, bet: int,
                   frames: seq<seq<Symbol>>) returns (outcome: SlotOutcome)
    requires IsBetChoice(bet)
    requires WellFormedFrames(frames)
    modifies ledger
    ensures caller != owner ==> outcome == NotYourPanel
    ensures caller == owner && old(ledger.GetBalance(owner)) < bet ==> outcome == BalanceTooLow
    ensures outcome.Spun? <==> caller == owner && old(ledger.GetBalance(owner)) >= bet
    ensures !outcome.Spun? ==>
              ledger.balances == old(ledger.balances) && ledger.persisted == old(ledger.persisted)
    ensures outcome.Spun? ==>
              && caller == owner && old(ledger.GetBalance(owner)) >= bet
              && |outcome.reels| == 3
              && (forall i :: 0 <= i < 3 ==> outcome.reels[i] == frames[i][i])
              && outcome.delta == Payout(bet, outcome.reels)
              && ledger.balances == old(ledger.balances)[owner := old(ledger.GetBalance(owner)) + outcome.delta]
              && ledger.persisted == ledger.balances
              && ledger.GetBalance(owner) >= 0
  {
    if caller != owner {
      return NotYourPanel;
    }
    if ledger.GetBalance(owner) < bet {
      return BalanceTooLow;
    }
    var reels := Reels(frames);
    var delta := Payout(bet, reels);
    PayoutKeepsNonNegative(ledger.GetBalance(owner), bet, reels);
    ledger.AddBalance(owner, delta);
    outcome := Spun(reels, delta);
  }
}
