/**
 * Chinchiro, the three-dice duel against the bot: each side rolls up to
 * three times until it gets a hand, the two hands are ranked, and the
 * winner's (or the loser's opponent's) score sets the payout multiplier.
 */
module Chinchiro {
  import opened Balances

  type Die = d: int | 1 <= d <= 6 witness 1

  /** The hand names: ピンゾロ, n ゾロ, シゴロ, ヒフミ, n の目, 役なし. */
  datatype Hand = Pinzoro | Zorome(n: int) | Shigoro | Hifumi | Point(n: int) | NoHand

  /** The scores a hand of three dice can have. */
  predicate Reachable(score: int) {
    score == -10 || score == 0 || 1 <= score <= 6 || score == 90 || 94 <= score <= 98 || score == 100
  }

  /** `sorted(dice)` for three dice. */
  function SortDice(d: seq<Die>): (s: seq<Die>)
    requires |d| == 3
    ensures |s| == 3
  {
    var a, b, c := d[0], d[1], d[2];
    if a <= b then
      if b <= c then [a, b, c]
      else if a <= c then [a, c, b]
      else [c, a, b]
    else
      if a <= c then [b, a, c]
      else if b <= c then [b, c, a]
      else [c, b, a]
  }

  /** Sorting yields an ascending rearrangement of the same dice. */
  lemma SortDiceSorts(d: seq<Die>)
    requires |d| == 3
    ensures var s := SortDice(d); s[0] <= s[1] <= s[2] && multiset(s) == multiset(d)
  {
    assert d == [d[0], d[1], d[2]];
  }

  lemma InTriple(v: int, p: int, q: int, r: int)
    requires v in multiset{p, q, r}
    ensures v == p || v == q || v == r
  {
  }

  /** Two ascending triples holding the same values are equal. */
  lemma AscendingTripleUnique(a: int, b: int, c: int, p: int, q: int, r: int)
    requires a <= b <= c && p <= q <= r
    requires multiset{a, b, c} == multiset{p, q, r}
    ensures a == p && b == q && c == r
  {
    InTriple(a, p, q, r);
    InTriple(p, a, b, c);
    InTriple(c, p, q, r);
    InTriple(r, a, b, c);
    assert multiset{a, b, c}[b] == multiset{p, q, r}[b];
  }

  /** A sequence of three dice is its three elements, as a sequence and as a multiset. */
  lemma TripleElements(x: seq<Die>)
    requires |x| == 3
    ensures x == [x[0], x[1], x[2]]
    ensures multiset(x) == multiset{x[0] as int, x[1] as int, x[2] as int}
  {
    assert x == [x[0], x[1], x[2]];
  }

  /** Any two orderings of the same dice sort to the same sequence. */
  lemma SortIgnoresOrder(d: seq<Die>, e: seq<Die>)
    requires |d| == 3 && |e| == 3
    requires multiset(d) == multiset(e)
    ensures SortDice(d) == SortDice(e)
  {
    SortDiceSorts(d);
    SortDiceSorts(e);
    var x, y := SortDice(d), SortDice(e);
    TripleElements(x);
    TripleElements(y);
    AscendingTripleUnique(x[0], x[1], x[2], y[0], y[1], y[2]);
  }

  /** The hand name and score `chinchiro_judge` assigns. */
  datatype Judgement = Judgement(hand: Hand, score: int)

  /** `chinchiro_judge`: sort the dice, then look the hand up. */
  function Judge(dice: seq<Die>): (r: Judgement)
    requires |dice| == 3
    ensures Reachable(r.score)
    ensures r.hand == NoHand <==> r.score == 0
  {
    var d := SortDice(dice);
    if d == [1, 1, 1] then Judgement(Pinzoro, 100)
    else if d[0] == d[1] == d[2] then Judgement(Zorome(d[0]), 100 - d[0] as int)
    else if d == [4, 5, 6] then Judgement(Shigoro, 90)
    else if d == [1, 2, 3] then Judgement(Hifumi, -10)
    else if d[0] == d[1] then Judgement(Point(d[2]), d[2])
    else if d[1] == d[2] then Judgement(Point(d[0]), d[0])
    else Judgement(NoHand, 0)
  }

  /** The judgement sees only which dice were rolled, not their order. */
  lemma JudgeIgnoresOrder(d: seq<Die>, e: seq<Die>)
    requires |d| == 3 && |e| == 3
    requires multiset(d) == multiset(e)
    ensures Judge(d) == Judge(e)
  {
    SortIgnoresOrder(d, e);
  }

  /** Triples: ピンゾロ scores 100, any other triple n scores 100 − n. */
  lemma JudgeTriples(d: seq<Die>)
    requires |d| == 3 && d[0] == d[1] == d[2]
    ensures d[0] == 1 ==> Judge(d) == Judgement(Pinzoro, 100)
    ensures d[0] != 1 ==> Judge(d) == Judgement(Zorome(d[0]), 100 - d[0] as int)
  {
  }

  /** The straights, in any order: 4-5-6 is シゴロ (90), 1-2-3 is ヒフミ (−10). */
  lemma JudgeStraights(d: seq<Die>)
    requires |d| == 3
    ensures multiset(d) == multiset{4, 5, 6} ==> Judge(d) == Judgement(Shigoro, 90)
    ensures multiset(d) == multiset{1, 2, 3} ==> Judge(d) == Judgement(Hifumi, -10)
  {
    if multiset(d) == multiset{4, 5, 6} {
      SortIgnoresOrder(d, [4, 5, 6]);
    }
    if multiset(d) == multiset{1, 2, 3} {
      SortIgnoresOrder(d, [1, 2, 3]);
    }
  }

  /** A pair scores the odd die out, whichever positions the pair holds. */
  lemma JudgePairs(d: seq<Die>)
    requires |d| == 3
    ensures d[0] == d[1] != d[2] ==> Judge(d) == Judgement(Point(d[2]), d[2])
    ensures d[0] == d[2] != d[1] ==> Judge(d) == Judgement(Point(d[1]), d[1])
    ensures d[1] == d[2] != d[0] ==> Judge(d) == Judgement(Point(d[0]), d[0])
  {
  }

  /** Three different dice that are not a straight are 役なし (0). */
  lemma JudgeNoHand(d: seq<Die>)
    requires |d| == 3
    requires d[0] != d[1] && d[1] != d[2] && d[0] != d[2]
    requires multiset(d) != multiset{4, 5, 6} && multiset(d) != multiset{1, 2, 3}
    ensures Judge(d) == Judgement(NoHand, 0)
  {
    SortDiceSorts(d);
    var s := SortDice(d);
    assert s != [4, 5, 6] by {
      if s == [4, 5, 6] {
        assert false;
      }
    }
    assert s != [1, 2, 3] by {
      if s == [1, 2, 3] {
        assert false;
      }
    }
  }

  /** No three dice score 99, so the payout branches for 99 never run. */
  lemma NoHandScores99(d: seq<Die>)
    requires |d| == 3
    ensures Judge(d).score != 99
  {
  }

  /** `yaku_rank`: the strength used to compare two hands. */
  function Rank(score: int): (k: int)
    ensures Reachable(score) ==> -10 <= k <= 100
    ensures k == -10 <==> score == -10
    ensures k == 0 <==> score == 0
  {
    if score >= 90 then score
    else if score > 0 then 10 + score
    else if score == 0 then 0
    else if score == -10 then -10
    else -100
  }

  /**
   * On reachable scores the rank is strictly increasing, so it orders hands
   * exactly as the scores do and the −100 fallback is never returned.
   */
  lemma RankOrdersScores(s: int, t: int)
    requires Reachable(s) && Reachable(t)
    ensures s < t <==> Rank(s) < Rank(t)
    ensures s == t <==> Rank(s) == Rank(t)
    ensures Rank(s) != -100
  {
  }

  /** One side's final roll: the dice, their hand and score, and which try it was. */
  datatype Throw = Throw(dice: seq<Die>, hand: Hand, score: int, tries: int)

  /** The random source's shape: three rolls of three dice each. */
  predicate WellFormedRolls(rolls: seq<seq<Die>>) {
    |rolls| == 3 && forall i :: 0 <= i < 3 ==> |rolls[i]| == 3
  }

  /**
   * `t` is what rolling until a hand gives on `rolls`: it is try 1, 2 or 3,
   * holds that try's dice judged as `Judge` does, every earlier try was
   * 役なし, and only the third try may stand without a hand.
   */
  predicate RolledUntilYaku(rolls: seq<seq<Die>>, t: Throw)
    requires WellFormedRolls(rolls)
  {
    && 1 <= t.tries <= 3
    && t.dice == rolls[t.tries - 1]
    && Judgement(t.hand, t.score) == Judge(t.dice)
    && (forall i :: 0 <= i < t.tries - 1 ==> Judge(rolls[i]).hand == NoHand)
    && (t.tries < 3 ==> t.hand != NoHand)
  }

  /** The rolls determine the throw: at most one throw rolls until a hand on them. */
  lemma RolledUntilYakuUnique(rolls: seq<seq<Die>>, t: Throw, t': Throw)
    requires WellFormedRolls(rolls)
    requires RolledUntilYaku(rolls, t) && RolledUntilYaku(rolls, t')
    ensures t == t'
  {
    if t.tries != t'.tries {
      assert false;
    }
  }

  /**
   * `roll_until_yaku`: try the rolls in order and keep the first one with a
   * hand; if none has one, the third roll stands (as 役なし) on try 3.
   */
  method RollUntilYaku(rolls: seq<seq<Die>>) returns (t: Throw)
    requires WellFormedRolls(rolls)
    ensures RolledUntilYaku(rolls, t)
  {
    var dice := rolls[0];
    var hand, score := NoHand, 0;
    for i := 1 to 4
      invariant forall j :: 0 <= j < i - 1 ==> Judge(rolls[j]).hand == NoHand
      invariant i > 1 ==> dice == rolls[i - 2] && Judgement(hand, score) == Judge(dice)
    {
      dice := rolls[i - 1];
      var judged := Judge(dice);
      hand, score := judged.hand, judged.score;
      if hand != NoHand {
        return Throw(dice, hand, score, i);
      }
    }
    t := Throw(dice, hand, score, 3);
  }

  /** How a duel settles: a credit, a debit, a draw, or the ヒフミ refusal. */
  datatype Settlement = Win(payout: int) | Loss(amount: int) | Tie | HifumiShortfall

  /** The balance change a settlement makes. */
  function Delta(s: Settlement): int {
    match s
    case Win(p) => p
    case Loss(a) => -a
    case Tie => 0
    case HifumiShortfall => 0
  }

  /** The multiplier on a user win (bot.py:267-272). */
  function WinMultiplier(userScore: int): (m: int)
    ensures userScore == 100 ==> m == 5
    ensures 1 <= userScore <= 6 ==> m == userScore
    ensures userScore == 90 || 94 <= userScore <= 98 ==> m == 2
    ensures userScore == 0 || userScore == -10 ==> m == 2
    ensures Reachable(userScore) ==> m > 0 && (m == 3 <==> userScore == 3)
  {
    if userScore >= 90 then
      if userScore == 100 then 5
      else if userScore == 99 then 3
      else 2
    else if userScore > 0 then userScore
    else 2
  }

  /** The multiplier on a user loss outside the ヒフミ case, from the bot's score. */
  function LossMultiplier(botScore: int): (m: int)
    ensures botScore == 100 ==> m == 5
    ensures 1 <= botScore <= 6 ==> m == botScore
    ensures botScore == 90 || 94 <= botScore <= 98 ==> m == 2
    ensures botScore == 0 || botScore == -10 ==> m == 1
    ensures Reachable(botScore) ==> m > 0 && (m == 3 <==> botScore == 3)
  {
    if botScore >= 90 then
      if botScore == 100 then 5
      else if botScore == 99 then 3
      else 2
    else if botScore > 0 then botScore
    else 1
  }

  /**
   * The settlement branch as the source writes it: the ヒフミ double loss
   * (with its balance pre-check) is keyed on the BOT's score being −10.
   */
  function SettleAsWritten(bet: int, balance: int, userScore: int, botScore: int): (s: Settlement)
    ensures s.Win? <==> Rank(userScore) > Rank(botScore)
    ensures s == Tie <==> Rank(userScore) == Rank(botScore)
    ensures s == HifumiShortfall ==> botScore == -10 && balance < 2 * bet
    ensures s.Loss? && botScore == -10 ==> s.amount == 2 * bet
  {
    if Rank(userScore) > Rank(botScore) then Win(bet * WinMultiplier(userScore))
    else if Rank(userScore) < Rank(botScore) then
      if botScore == -10 then
        if balance < bet * 2 then HifumiShortfall else Loss(bet * 2)
      else Loss(bet * LossMultiplier(botScore))
    else Tie
  }

  /**
   * As written, the ヒフミ branch is dead: a bot ヒフミ has the lowest rank,
   * so the user never loses to it, and a user who rolls ヒフミ and loses
   * pays only what the bot's score says.
   */
  lemma AsWrittenHifumiBranchIsDead(bet: int, balance: int, userScore: int, botScore: int)
    requires Reachable(userScore) && Reachable(botScore)
    ensures SettleAsWritten(bet, balance, userScore, botScore) != HifumiShortfall
    ensures SettleAsWritten(bet, balance, userScore, botScore).Loss? ==> botScore != -10
  {
    RankOrdersScores(userScore, botScore);
  }

  /**
   * The settlement as written on reachable scores: no refusal ever happens;
   * equal scores draw; a higher score wins 5×bet for ピンゾロ, score×bet for
   * a point hand and 2×bet otherwise; a lower score, the user's ヒフミ
   * included, loses the bot's multiplier (5, 2, the point, or 1 against
   * 役なし) times the bet.
   */
  lemma SettleAsWrittenProperties(bet: int, balance: int, userScore: int, botScore: int)
    requires bet > 0 && Reachable(userScore) && Reachable(botScore)
    ensures var s := SettleAsWritten(bet, balance, userScore, botScore);
      && s != HifumiShortfall
      && (s == Tie <==> userScore == botScore)
      && (s.Win? <==> userScore > botScore)
      && (s.Win? ==>
            s.payout == bet * (if userScore == 100 then 5
                               else if 0 < userScore < 90 then userScore
                               else 2))
      && (s.Loss? ==>
            userScore < botScore
            && s.amount == bet * (if botScore == 100 then 5
                                  else if botScore >= 90 then 2
                                  else if botScore > 0 then botScore
                                  else 1))
      && (s.Win? ==> s.payout > 0)
      && (s.Loss? ==> s.amount > 0)
  {
    RankOrdersScores(userScore, botScore);
  }

  /** A concrete case: ヒフミ against 役なし costs the user a single bet. */
  lemma AsWrittenHifumiLoserPaysOnce()
    ensures SettleAsWritten(1000, 0, Judge([1, 2, 3]).score, Judge([1, 2, 4]).score) == Loss(1000)
  {
    JudgeStraights([1, 2, 3]);
    JudgeNoHand([1, 2, 4]);
  }

  /**
   * The settlement branch with the ヒフミ double loss keyed on the user's
   * own ヒフミ: a user who rolled ヒフミ and lost pays twice the bet, and is
   * refused with no change when the balance cannot cover that.
   */
  function Settle(bet: int, balance: int, userScore: int, botScore: int): (s: Settlement)
    ensures s.Win? <==> Rank(userScore) > Rank(botScore)
    ensures s == Tie <==> Rank(userScore) == Rank(botScore)
    ensures s == HifumiShortfall ==> userScore == -10 && balance < 2 * bet
    ensures s.Loss? && userScore == -10 ==> s.amount == 2 * bet
  {
    if Rank(userScore) > Rank(botScore) then Win(bet * WinMultiplier(userScore))
    else if Rank(userScore) < Rank(botScore) then
      if userScore == -10 then
        if balance < bet * 2 then HifumiShortfall else Loss(bet * 2)
      else Loss(bet * LossMultiplier(botScore))
    else Tie
  }

  /** With the correction, a losing ヒフミ always costs exactly twice the bet. */
  lemma SettleHifumiLoserPaysDouble(bet: int, balance: int, botScore: int)
    requires Reachable(botScore) && botScore != -10
    ensures Settle(bet, balance, -10, botScore) ==
              if balance < 2 * bet then HifumiShortfall else Loss(2 * bet)
  {
    RankOrdersScores(-10, botScore);
  }

  /** The correction changes nothing unless the user rolled ヒフミ. */
  lemma SettleAgreesWithoutUserHifumi(bet: int, balance: int, userScore: int, botScore: int)
    requires Reachable(userScore) && Reachable(botScore) && userScore != -10
    ensures Settle(bet, balance, userScore, botScore) == SettleAsWritten(bet, balance, userScore, botScore)
  {
    RankOrdersScores(userScore, botScore);
  }

  /**
   * The duel's settlement on reachable scores: equal scores draw; a higher
   * score wins 5×bet for ピンゾロ, score×bet for a point hand and 2×bet
   * otherwise (the 3×bet branch for a score of 99 never applies); a lower
   * score loses a positive amount mirroring the bot's score, or twice the
   * bet for the user's own ヒフミ.
   */
  lemma SettleProperties(bet: int, balance: int, userScore: int, botScore: int)
    requires bet > 0 && Reachable(userScore) && Reachable(botScore)
    ensures var s := Settle(bet, balance, userScore, botScore);
      && (s == Tie <==> userScore == botScore)
      && (s.Win? <==> userScore > botScore)
      && (s.Win? ==>
            s.payout == bet * (if userScore == 100 then 5
                               else if 0 < userScore < 90 then userScore
                               else 2))
      && (s.Loss? ==>
            userScore < botScore
            && s.amount == bet * (if userScore == -10 then 2
                                  else if botScore == 100 then 5
                                  else if botScore >= 90 then 2
                                  else if botScore > 0 then botScore
                                  else 1))
      && (s == HifumiShortfall <==> userScore == -10 && botScore > -10 && balance < 2 * bet)
      && (s.Win? ==> s.payout > 0)
      && (s.Loss? ==> s.amount > 0)
  {
    RankOrdersScores(userScore, botScore);
  }

  /** Only the bet is checked up front, so a point-hand loss can overdraw. */
  lemma SettleCanOverdraw()
    ensures 1000 + Delta(SettleAsWritten(1000, 1000, Judge([1, 2, 4]).score, Judge([6, 1, 1]).score)) == -5000
  {
    JudgeNoHand([1, 2, 4]);
    JudgePairs([6, 1, 1]);
  }

  datatype ChinchiroOutcome =
    | NotYourPanel
    | BalanceTooLow
    | Played(user: Throw, bot: Throw, settlement: Settlement)

  /**
   * `ChinchiroView.handle_bet`: only the owner may play, with at least
   * `bet` on the balance; the user then the bot roll until a hand, the duel
   * is settled as the source writes it, and the settlement's delta is added
   * to the owner's balance, except on a draw, which leaves the ledger as it
   * was.  Unless the user rolled ヒフミ, that settlement is also the
   * corrected one.
   */
  method HandleBet(ledger: Ledger, owner: UserId, caller: UserId, bet: int,
                   userRolls: seq<seq<Die>>, botRolls: seq<seq<Die>>)
    returns (outcome: ChinchiroOutcome)
    requires IsBetChoice(bet)
    requires WellFormedRolls(userRolls) && WellFormedRolls(botRolls)
    modifies ledger
    ensures caller != owner ==> outcome == NotYourPanel
    ensures caller == owner && old(ledger.GetBalance(owner)) < bet ==> outcome == BalanceTooLow
    ensures outcome.Played? <==> caller == owner && old(ledger.GetBalance(owner)) >= bet
    ensures outcome.Played? ==>
              && RolledUntilYaku(userRolls, outcome.user)
              && RolledUntilYaku(botRolls, outcome.bot)
              && outcome.settlement ==
                   SettleAsWritten(bet, old(ledger.GetBalance(owner)), outcome.user.score, outcome.bot.score)
    ensures outcome.Played? && outcome.user.score != -10 ==>
              outcome.settlement ==
                Settle(bet, old(ledger.GetBalance(owner)), outcome.user.score, outcome.bot.score)
    ensures outcome.Played? && (outcome.settlement.Win? || outcome.settlement.Loss?) ==>
              && ledger.balances ==
                   old(ledger.balances)[owner := old(ledger.GetBalance(owner)) + Delta(outcome.settlement)]
              && ledger.persisted == ledger.balances
    ensures !(outcome.Played? && (outcome.settlement.Win? || outcome.settlement.Loss?)) ==>
              ledger.balances == old(ledger.balances) && ledger.persisted == old(ledger.persisted)
  {
    if caller != owner {
      return NotYourPanel;
    }
    if ledger.GetBalance(owner) < bet {
      return BalanceTooLow;
    }
    var user := RollUntilYaku(userRolls);
    var bot := RollUntilYaku(botRolls);
    var settlement := SettleAsWritten(bet, ledger.GetBalance(owner), user.score, bot.score);
    if user.score != -10 {
      SettleAgreesWithoutUserHifumi(bet, ledger.GetBalance(owner), user.score, bot.score);
    }
    if settlement.Win? || settlement.Loss? {
      ledger.AddBalance(owner, Delta(settlement));
    }
    outcome := Played(user, bot, settlement);
  }
}
