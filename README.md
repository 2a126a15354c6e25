# velt bot: ledger and wager games

This project models the core of the velt chat bot (`bot.py`). The bot keeps a ledger of a
virtual currency, velt, and runs three wager games whose outcomes debit or credit that ledger:

- **Ledger** (`ledger.dfy`, module `Balances`). The class `Ledger` holds `velt_balances` as a
  `map` from user id to integer balance. A second map is the snapshot file that
  `save_balances` rewrites after every mutation. The class also models `get_balance`,
  `set_balance` and `add_balance`, and the ledger commands: admin issue (発行), admin
  decrease (減少), transfer (送金) and admin reset (リセット). The admin check is a boolean
  parameter. Ghost `Sum` gives the ledger's total, so transfer can be proved to conserve it.
- **Slot** (`slot.dfy`). This covers the three spin frames that build the final reels,
  the jackpot/hit/miss payout, and `SlotView.handle_bet`.
- **Chinchiro** (`chinchiro.dfy`). This covers `chinchiro_judge` (sort, then a table
  lookup), `roll_until_yaku` (up to three tries), `yaku_rank`, the settlement branch, and
  `ChinchiroView.handle_bet`.
- **Blackjack** (`blackjack.dfy`). This covers `BlackjackGameView.start_game`, and the
  class `PlayView` for `BlackjackPlayView`: its cards and `finished` flag, `hit`,
  `stand_btn`, and `finish` with its dealer loop and settlement. The pure function
  `DealerHand` specifies the dealer loop.

Randomness is passed in as parameters:
- the slot's spin frames are three frames of three symbols;
- each chinchiro side's three rolls of three dice are in 1..6;
- the player's hit card is a value in 1..10;
- the dealer's successive draws are a total function `nat -> Card`.

A roll or frame the source would never reach is drawn but never looked at.

The source keys the ledger by `str(user_id)`. Decimal printing is injective on integers,
so the model keys the ledger by the integer id itself.

The model follows the code where its behaviour is surprising:

- A bust hit still runs the whole dealer loop before settling (bot.py:370-371, 387-391).
- Admin decrease and chinchiro losses can leave a balance negative. Decrease does no check
  (bot.py:77). Chinchiro checks only `balance >= bet` (bot.py:204) before debiting up to
  5×bet or 6×bet.
- The ヒフミ double-loss branch is keyed on the bot's score (see Findings). The game
  handler settles as the code is written; the corrected branch is `Settle`, and the
  handler's contract states that the two agree unless the user rolled ヒフミ.

## Model

| member | source | states |
|---|---|---|
| `Balances.Ledger.Load` | bot.py:29-35 | start-up state is the snapshot's mapping, or empty when the file is missing; memory and snapshot agree |
| `Balances.Ledger.Save` | bot.py:38-40 | the snapshot becomes exactly the in-memory mapping; balances unchanged |
| `Balances.Ledger.GetBalance` | bot.py:52-53 | a stored user reads their stored balance; a user never written reads 0 |
| `Balances.LookupAfterWrite` | bot.py:52-53 | an unseen user reads 0; writing one key changes that key's lookup only |
| `Balances.Ledger.SetBalance` | bot.py:43-45 | the user's balance becomes the amount, every other user keeps theirs, the snapshot is rewritten |
| `Balances.Ledger.AddBalance` | bot.py:47-50 | the user's balance becomes old balance (0 if unseen) plus the amount; others unchanged; total shifts by the amount; snapshot rewritten |
| `Balances.SumWrite` | bot.py:47-50 | writing one key shifts the ledger total by the new value minus the old |
| `Balances.Ledger.Issue` | bot.py:61-66 | non-admins change nothing; admins add any amount, unchecked |
| `Balances.Ledger.Decrease` | bot.py:73-78 | non-admins change nothing; admins subtract any amount, unchecked, so a decrease past the balance leaves it negative |
| `Balances.Ledger.Transfer` | bot.py:100-111 | self-transfer, a non-positive amount and a short balance are each refused with nothing changed (in that order); otherwise the new mapping is the two-step debit/credit and the total is preserved |
| `Balances.TransferredProperties` | bot.py:110-111 | sender loses exactly the amount, receiver gains exactly the amount (created at 0 if unseen), everyone else unchanged, keys gain at most the two parties, total preserved |
| `Balances.TransferredKeepsSenderNonNegative` | bot.py:107-111 | a transfer that passed the balance check leaves the sender at or above 0 |
| `Balances.Ledger.Reset` | bot.py:431-436 | non-admins change nothing; otherwise every existing key becomes 0, no key is added or removed, the total is 0, saved once |
| `Balances.ZeroedProperties` | bot.py:434-435 | the reset mapping has the same keys, reads 0 for every user and sums to 0 |
| `Slot.Reels` | bot.py:153-158 | the final reels are the diagonal of the three spin frames |
| `Slot.Payout` | bot.py:163-173 | a spin pays +10×bet, +2×bet or −bet, never anything else; three equal symbols pay 10×bet, three different symbols cost the bet |
| `Slot.PayoutByKinds` | bot.py:163-173 | one kind of symbol pays +10×bet, two kinds +2×bet, three kinds −bet |
| `Slot.PayoutIgnoresOrder` | bot.py:163-167 | the payout depends only on the multiset of symbols |
| `Slot.PayoutKeepsNonNegative` | bot.py:146-173 | after the balance pre-check a spin never leaves the balance negative; the only debit is exactly the bet |
| `Slot.HandleBet` | bot.py:142-173 | the reels spin exactly when the caller owns the panel and has at least the bet; otherwise nothing changes. A spin moves the owner's balance by the reels' payout and saves it |
| `Chinchiro.SortDice` | bot.py:209 | three dice in, three dice out (what the order is, is stated by `SortDiceSorts`) |
| `Chinchiro.SortDiceSorts` | bot.py:209 | the sorted dice are ascending and a rearrangement of the roll |
| `Chinchiro.SortIgnoresOrder` | bot.py:209 | any two orderings of the same dice sort alike |
| `Chinchiro.Judge` | bot.py:208-228 | every score is one of −10, 0, 1..6, 90, 94..98, 100, and the hand is 役なし exactly when the score is 0 |
| `Chinchiro.JudgeIgnoresOrder` | bot.py:208-209 | the judgement depends only on the multiset of dice |
| `Chinchiro.JudgeTriples` | bot.py:211-215 | triple ones scores 100; any other triple n scores 100−n |
| `Chinchiro.JudgeStraights` | bot.py:217-221 | 4-5-6 in any order scores 90; 1-2-3 in any order scores −10 |
| `Chinchiro.JudgePairs` | bot.py:223-226 | a pair, in any positions, scores the odd die |
| `Chinchiro.JudgeNoHand` | bot.py:228 | three different dice that are not a straight score 0 as 役なし |
| `Chinchiro.NoHandScores99` | bot.py:284-288 | no roll scores 99, so the 3× branches are dead code |
| `Chinchiro.Rank` | bot.py:248-253 | a reachable score ranks in −10..100; the rank is −10 exactly for ヒフミ and 0 exactly for 役なし |
| `Chinchiro.RankOrdersScores` | bot.py:248-253 | on reachable scores the rank is strictly increasing (equal exactly when the scores are), and −100 is never returned |
| `Chinchiro.RollUntilYaku` | bot.py:230-240 | the result satisfies `RolledUntilYaku`: it is the first roll with a hand (try 1 or 2), or else the third roll on try 3, judged by `Judge`; every earlier roll was 役なし |
| `Chinchiro.RolledUntilYakuUnique` | bot.py:230-240 | the rolls determine the throw: two throws that both roll until a hand on the same rolls are equal |
| `Chinchiro.WinMultiplier` | bot.py:267-272 | on a user win: 5 for ピンゾロ, the point for 1..6, 2 for シゴロ, the other triples, 役なし and ヒフミ; on a reachable score it is 3 only for a 3-point hand (the 99 branch never applies) and always positive |
| `Chinchiro.LossMultiplier` | bot.py:284-299 | on a user loss outside the ヒフミ branch: 5 for a bot ピンゾロ, the point for 1..6, 2 for シゴロ and the other triples, 1 for 役なし and ヒフミ; on a reachable score it is 3 only for a 3-point hand (the 99 branch never applies) and always positive |
| `Chinchiro.SettleAsWritten` | bot.py:265-301 | the user wins exactly when their rank is higher and draws exactly on equal ranks; the ヒフミ refusal happens only against a bot score of −10 with a balance below 2×bet, and a loss against a bot score of −10 costs 2×bet |
| `Chinchiro.SettleAsWrittenProperties` | bot.py:265-301 | as written, on reachable scores: never a refusal; equal scores draw; a higher score wins 5×bet for ピンゾロ, score×bet for a point hand, else 2×bet; a lower score, a user ヒフミ included, loses the bot's multiplier (5, 2, point or 1) × bet; amounts are positive |
| `Chinchiro.AsWrittenHifumiBranchIsDead` | bot.py:275-283 | as written, the ヒフミ refusal never happens and no loss is ever against a bot ヒフミ |
| `Chinchiro.AsWrittenHifumiLoserPaysOnce` | bot.py:275-299 | as written, a user's ヒフミ losing to 役なし costs one bet, not two |
| `Chinchiro.Settle` | bot.py:265-301 | corrected: wins and draws as in the code; the ヒフミ refusal and the 2×bet loss are keyed on the user's own −10, the refusal only below 2×bet |
| `Chinchiro.SettleHifumiLoserPaysDouble` | bot.py:277-283 | corrected: a user who rolled ヒフミ and lost pays exactly 2×bet, or is refused with no change when the balance is below 2×bet |
| `Chinchiro.SettleAgreesWithoutUserHifumi` | bot.py:265-301 | the correction changes no settlement unless the user rolled ヒフミ |
| `Chinchiro.SettleProperties` | bot.py:265-301 | equal scores draw; a higher score wins 5×bet for ピンゾロ, score×bet for a point hand, else 2×bet; a lower score loses the bot's multiplier (5, 2, score or 1) × bet, or 2×bet for the user's ヒフミ; amounts are positive |
| `Chinchiro.SettleCanOverdraw` | bot.py:293-296 | a user with exactly the bet who loses to a 6-point hand ends at −5000 |
| `Chinchiro.HandleBet` | bot.py:200-303 | the game is played exactly when the caller owns the panel and has at least the bet; otherwise nothing changes. Each side's throw is `RolledUntilYaku` of its own rolls, the settlement is `SettleAsWritten` of the two scores (and equals `Settle` unless the user rolled ヒフミ), and only a win or loss moves the owner's balance, by the settlement's delta |
| `Blackjack.Total` | bot.py:350 | a hand's total lies between its card count and ten times it |
| `Blackjack.DealerHand` | bot.py:386-391 | the dealer keeps its cards and appends the next draws in order; a total of 17 or more stops at once, otherwise the final total is 17..26 |
| `Blackjack.DealerStopsAtFirst17` | bot.py:387-389 | the dealer stops at the first total of 17 or more: every hand it held before its last draw was below 17 |
| `Blackjack.DealerStopsIn17To26` | bot.py:387 | from the two dealt cards the dealer loop ends with a total in 17..26 |
| `Blackjack.Decide` | bot.py:398-408 | the verdict is a bust exactly when the player passed 21; a dealer bust against a standing player is a player win; a draw only on equal totals |
| `Blackjack.DecideTable` | bot.py:398-408 | a bust player loses even if the dealer busts; otherwise a dealer bust or a higher total wins +bet, a lower total loses −bet, equal totals are 0; symmetric between two standing hands |
| `Blackjack.StandOnTwentyAgainstSeventeen` | bot.py:387-403 | 10+10 against a dealer's 10+7: the dealer draws nothing and the player wins |
| `Blackjack.PlayView.constructor` | bot.py:341-347 | two cards each, not finished, the game invariant holds |
| `Blackjack.PlayView.DealerDraws` | bot.py:387-391 | the dealer loop produces exactly `DealerHand` of the starting cards |
| `Blackjack.PlayView.Finish` | bot.py:384-409 | sets finished, the dealer hand is `DealerHand`, and the owner's balance moves by the verdict's ±bet (saved), or stays as it was on a draw |
| `Blackjack.PlayView.Hit` | bot.py:361-374 | another user or a finished game changes nothing; otherwise exactly one card is appended, and passing 21 finishes the game at −bet |
| `Blackjack.PlayView.Stand` | bot.py:377-382 | another user or a finished game changes nothing; otherwise the game finishes and settles |
| `Blackjack.StartGame` | bot.py:328-338 | a game opens exactly when the caller owns the panel and has at least the bet; it starts with the given two cards each |

## Left out

- Chat-platform wiring is not modelled. This covers command registration, views and
  buttons as UI widgets, every message sent or edited, `show_state`/`hand_str` formatting,
  `on_ready` and `bot.run`. The caller's id and the admin flag are plain parameters.
- View timeouts (30 s and 60 s) and the presentational `asyncio.sleep` pacing are not
  modelled: they carry no state.
- `random` is not modelled: every draw is an input constrained to its domain. The
  dealer's draws are an infinite function `nat -> Card`, so the source never runs out of
  cards.
- JSON file I/O and `.env` loading are not modelled. A save is a copy of the map into the
  `persisted` field, and a load is the `Load` constructor. A failing write is not
  modelled.
- The balance inquiry command (残高確認), `is_admin` and `on_message` are not modelled.
  `on_message` uses regex matching and guild-member lookup, which are foreign library
  calls, and it ends in one `add_balance` call, which is modelled.
- Concurrency is not modelled: races between commands on the shared map, and double
  clicks on a view while a game is running.
- Chinchiro hand labels are the datatype `Hand` rather than formatted strings. The source
  tests only whether the label is 役なし, and `Judge` proves that label is given exactly
  when the score is 0.
- `Chinchiro.HandleBet` settles with the code as written (`SettleAsWritten`). The corrected
  ヒフミ branch (`Settle`) is used by no operation. Lemmas state its behaviour, and
  `SettleAgreesWithoutUserHifumi` states that it changes only a user-ヒフミ loss.

## Findings

| source | as written | input that shows it | evidently intended | confidence | as-written member | corrected member |
|---|---|---|---|---|---|---|
| bot.py:277-283 | the ヒフミ double loss and its 2×bet balance pre-check sit in the user-loses branch but test `bot_score == -10`; a bot ヒフミ has the lowest rank, so the user can never lose to it and the branch never runs | user rolls 1-2-3 (score −10), bot rolls 1-2-4 (役なし, score 0): the user loses 1×bet | a user who rolled ヒフミ and lost pays 2×bet, refused with no change when the balance is below 2×bet (the message says "lost by ヒフミ, must pay double") | high (not executed) | `Chinchiro.AsWrittenHifumiBranchIsDead` | `Chinchiro.SettleHifumiLoserPaysDouble` |
