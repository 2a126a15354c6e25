/**
 * The velt ledger: a process-wide mapping from user id to integer balance,
 * rewritten to its snapshot file after every mutation, plus the commands
 * that change it directly (issue, decrease, transfer, reset).
 *
 * The source keys the mapping by `str(user_id)`; since decimal printing is
 * injective on integers, the model keys it by the id itself.
 */
module Balances {

  type UserId = int

  /** The three bet buttons every game view offers. */
  predicate IsBetChoice(bet: int) {
    bet == 1000 || bet == 5000 || bet == 10000
  }

  /** `get_balance` on a plain mapping: an unseen user has balance 0. */
  function Lookup(m: map<UserId, int>, u: UserId): int {
    if u in m then m[u] else 0
  }

  /** A non-empty set of users has a member to pick. */
  lemma HasMember(s: set<UserId>)
    requires s != {}
    ensures exists u :: u in s
  {
    if forall u :: u !in s {
      assert false;
    }
  }

  /** Sum of all balances in a mapping. */
  ghost function Sum(m: map<UserId, int>): int
    decreases |m|
  {
    if m.Keys == {} then 0
    else
      HasMember(m.Keys);
      var k :| k in m.Keys;
      m[k] + Sum(m - {k})
  }

  /** The mapping after `add_balance(s, -a)` followed by `add_balance(t, a)`. */
  function Transferred(m: map<UserId, int>, s: UserId, t: UserId, a: int): map<UserId, int> {
    var m1 := m[s := Lookup(m, s) - a];
    m1[t := Lookup(m1, t) + a]
  }

  /** The mapping after the reset loop: every key kept, every value 0. */
  function Zeroed(m: map<UserId, int>): map<UserId, int> {
    map k | k in m :: 0
  }

  /**
   * An unseen user reads as 0, and writing one key changes the lookup of
   * that key only.
   */
  lemma LookupAfterWrite(m: map<UserId, int>, u: UserId, a: int, v: UserId)
    ensures u !in m ==> Lookup(m, u) == 0
    ensures Lookup(m[u := a], v) == if v == u then a else Lookup(m, v)
  {
  }

  /** Any key can be taken out first when summing. */
  lemma {:induction false} SumRemove(m: map<UserId, int>, k: UserId)
    requires k in m
    ensures Sum(m) == m[k] + Sum(m - {k})
    decreases |m|
  {
    var j :| j in m && Sum(m) == m[j] + Sum(m - {j});
    if j != k {
      assert |m - {j}| < |m| by { assert (m - {j}).Keys == m.Keys - {j}; }
      SumRemove(m - {j}, k);
      assert |m - {k}| < |m| by { assert (m - {k}).Keys == m.Keys - {k}; }
      SumRemove(m - {k}, j);
      assert m - {j} - {k} == m - {k} - {j};
    }
  }

  /** Writing one key shifts the total by the difference at that key. */
  lemma SumWrite(m: map<UserId, int>, u: UserId, a: int)
    ensures Sum(m[u := a]) == Sum(m) - Lookup(m, u) + a
  {
    var m' := m[u := a];
    SumRemove(m', u);
    if u in m {
      SumRemove(m, u);
      assert m' - {u} == m - {u};
    } else {
      assert m' - {u} == m;
    }
  }

  /**
   * Transfer between two distinct users debits the sender by exactly the
   * amount, credits the receiver by exactly the amount (creating the key at
   * 0 if unseen), leaves every other user alone and preserves the total.
   */
  lemma TransferredProperties(m: map<UserId, int>, s: UserId, t: UserId, a: int)
    requires s != t
    ensures var r := Transferred(m, s, t, a);
      && Lookup(r, s) == Lookup(m, s) - a
      && Lookup(r, t) == Lookup(m, t) + a
      && (forall v :: v != s && v != t ==> Lookup(r, v) == Lookup(m, v))
      && r.Keys == m.Keys + {s, t}
      && Sum(r) == Sum(m)
  {
    var m1 := m[s := Lookup(m, s) - a];
    SumWrite(m, s, Lookup(m, s) - a);
    SumWrite(m1, t, Lookup(m1, t) + a);
  }

  /** A transfer the balance check admitted never leaves the sender negative. */
  lemma TransferredKeepsSenderNonNegative(m: map<UserId, int>, s: UserId, t: UserId, a: int)
    requires s != t && Lookup(m, s) >= a
    ensures Lookup(Transferred(m, s, t, a), s) >= 0
  {
    TransferredProperties(m, s, t, a);
  }

  /** Reset keeps exactly the known users and leaves a total of 0. */
  lemma {:induction false} ZeroedProperties(m: map<UserId, int>)
    ensures Zeroed(m).Keys == m.Keys
    ensures forall u :: Lookup(Zeroed(m), u) == 0
    ensures Sum(Zeroed(m)) == 0
    decreases |m|
  {
    if m.Keys != {} {
      HasMember(m.Keys);
      var k :| k in m.Keys;
      SumRemove(Zeroed(m), k);
      assert |m - {k}| < |m| by { assert (m - {k}).Keys == m.Keys - {k}; }
      ZeroedProperties(m - {k});
      assert Zeroed(m) - {k} == Zeroed(m - {k});
    }
  }

  datatype TransferResult = Sent | SelfTransfer | NonPositiveAmount | InsufficientBalance

  class Ledger {
    /** `velt_balances`, the in-memory mapping. */
    var balances: map<UserId, int>
    /** The content of the snapshot file as last written by `save_balances`. */
    var persisted: map<UserId, int>

    /**
     * `load_balances` at start-up: the snapshot file's mapping, or the empty
     * mapping when the file does not exist (`stored == None`).
     */
    constructor Load(stored: Option<map<UserId, int>>)
      ensures balances == persisted
      ensures balances == if stored.Some? then stored.value else map[]
    {
      balances := if stored.Some? then stored.value else map[];
      persisted := balances;
    }

    /** `get_balance`: the stored balance, or 0 for a user never written. */
    function GetBalance(u: UserId): (b: int)
      reads this
      ensures u in balances ==> b == balances[u]
      ensures u !in balances ==> b == 0
    {
      Lookup(balances, u)
    }

    /** `save_balances`: the whole mapping becomes the snapshot. */
    method Save()
      modifies this
      ensures balances == old(balances) && persisted == balances
    {
      persisted := balances;
    }

    /** `set_balance`: overwrite one key, then save. */
    method SetBalance(u: UserId, amount: int)
      modifies this
      ensures balances == old(balances)[u := amount]
      ensures GetBalance(u) == amount
      ensures forall v :: v != u ==> GetBalance(v) == old(GetBalance(v))
      ensures persisted == balances
    {
      balances := balances[u := amount];
      Save();
    }

    /** `add_balance`: read the current balance (0 if unseen), add, write back, save. */
    method AddBalance(u: UserId, amount: int)
      modifies this
      ensures balances == old(balances)[u := old(GetBalance(u)) + amount]
      ensures GetBalance(u) == old(GetBalance(u)) + amount
      ensures forall v :: v != u ==> GetBalance(v) == old(GetBalance(v))
      ensures Sum(balances) == old(Sum(balances)) + amount
      ensures persisted == balances
    {
      SumWrite(balances, u, GetBalance(u) + amount);
      balances := balances[u := GetBalance(u) + amount];
      Save();
    }

    /** The admin issue command: `add_balance(target, amount)`, with no check on the amount. */
    method Issue(isAdmin: bool, target: UserId, amount: int) returns (ok: bool)
      modifies this
      ensures ok == isAdmin
      ensures ok ==> balances == old(balances)[target := old(GetBalance(target)) + amount]
      ensures ok ==> persisted == balances
      ensures !ok ==> balances == old(balances) && persisted == old(persisted)
    {
      ok := isAdmin;
      if ok {
        AddBalance(target, amount);
      }
    }

    /**
     * The admin decrease command: `add_balance(target, -amount)`, with no
     * check on the amount, so it may leave the target negative.
     */
    method Decrease(isAdmin: bool, target: UserId, amount: int) returns (ok: bool)
      modifies this
      ensures ok == isAdmin
      ensures ok ==> balances == old(balances)[target := old(GetBalance(target)) - amount]
      ensures ok ==> persisted == balances
      ensures ok && amount > old(GetBalance(target)) ==> GetBalance(target) < 0
      ensures !ok ==> balances == old(balances) && persisted == old(persisted)
    {
      ok := isAdmin;
      if ok {
        AddBalance(target, -amount);
      }
    }

    /**
     * The transfer command: refused, with nothing changed, when the target
     * is the sender, when the amount is not positive, or when the sender's
     * balance is below the amount; otherwise the sender is debited and the
     * target credited, each with its own save.
     */
    method Transfer(sender: UserId, target: UserId, amount: int) returns (r: TransferResult)
      modifies this
      ensures r == SelfTransfer <==> target == sender
      ensures r == NonPositiveAmount <==> target != sender && amount <= 0
      ensures r == InsufficientBalance <==>
                target != sender && amount > 0 && old(GetBalance(sender)) < amount
      ensures r != Sent ==> balances == old(balances) && persisted == old(persisted)
      ensures r == Sent ==> balances == Transferred(old(balances), sender, target, amount)
      ensures r == Sent ==> Sum(balances) == old(Sum(balances)) && persisted == balances
    {
      if target == sender {
        return SelfTransfer;
      }
      if amount <= 0 {
        return NonPositiveAmount;
      }
      if GetBalance(sender) < amount {
        return InsufficientBalance;
      }
      AddBalance(sender, -amount);
      AddBalance(target, amount);
      r := Sent;
    }

    /**
     * The admin reset command: every key present is set to 0 one at a time,
     * then the mapping is saved once.
     */
    method Reset(isAdmin: bool) returns (ok: bool)
      modifies this
      ensures ok == isAdmin
      ensures ok ==> balances == Zeroed(old(balances)) && persisted == balances
      ensures ok ==> Sum(balances) == 0
      ensures !ok ==> balances == old(balances) && persisted == old(persisted)
    {
      ok := isAdmin;
      if !ok {
        return;
      }
      var pending := balances.Keys;
      while pending != {}
        invariant pending <= balances.Keys
        invariant balances.Keys == old(balances).Keys
        invariant forall k :: k in balances && k !in pending ==> balances[k] == 0
        invariant forall k :: k in pending ==> balances[k] == old(balances)[k]
        invariant persisted == old(persisted)
        decreases pending
      {
        HasMember(pending);
        var k :| k in pending;
        balances := balances[k := 0];
        pending := pending - {k};
      }
      assert balances.Keys == Zeroed(old(balances)).Keys;
      assert forall k :: k in balances ==> balances[k] == Zeroed(old(balances))[k];
      assert balances == Zeroed(old(balances));
      ZeroedProperties(old(balances));
      Save();
    }
  }

  datatype Option<T> = None | Some(value: T)
}
