/** The single-owner asset ledger that authorities certify transfers onto. */
module Ledgers {
  import opened Basics

  type AccountId = string

  datatype Transfer = Transfer(from: AccountId, fromSeq: U64, to: AccountId, amount: U128)

  datatype Account = Account(balance: U128, nextSeq: U64)

  type Ledger = map<AccountId, Account>

  datatype Reject =
    | UnknownSender
    | StaleSequence(expected: U64, got: U64)
    | Insufficient(have: U128, need: U128)
    | SequenceExhausted(account: AccountId)
    | BalanceOverflow(account: AccountId, have: U128, credit: U128)

  datatype GenesisError =
    | DuplicateAccount(account: AccountId)
    | TotalSupplyOverflow

  function Balance(l: Ledger, id: AccountId): (b: U128) {
    if id in l then l[id].balance else 0
  }

  function NextSeq(l: Ledger, id: AccountId): (s: U64) {
    if id in l then l[id].nextSeq else 0
  }

  /** Every arithmetic and state guard, checked in the source's order, without mutation. */
  function Preflight(l: Ledger, t: Transfer): (r: Option<Reject>) {
    if t.from !in l then Some(UnknownSender)
    else if t.fromSeq != l[t.from].nextSeq then Some(StaleSequence(l[t.from].nextSeq, t.fromSeq))
    else if l[t.from].balance < t.amount then Some(Insufficient(l[t.from].balance, t.amount))
    else if l[t.from].nextSeq == MAX_U64 then Some(SequenceExhausted(t.from))
    else if t.from != t.to && Balance(l, t.to) + t.amount > MAX_U128 then
      Some(BalanceOverflow(t.to, Balance(l, t.to), t.amount))
    else None
  }

  /** The sender has the sequence number and the funds, and neither the counter nor the recipient overflows. */
  predicate Payable(l: Ledger, t: Transfer) {
    && t.from in l && l[t.from].nextSeq == t.fromSeq < MAX_U64 && t.amount <= l[t.from].balance
    && (t.from == t.to || t.to !in l || l[t.to].balance + t.amount <= MAX_U128)
  }

  /** A transfer passes exactly if it is payable, and each rejection occurs exactly in its case. */
  lemma PreflightExactly(l: Ledger, t: Transfer)
    ensures Preflight(l, t).None? <==> Payable(l, t)
    ensures Preflight(l, t) == Some(UnknownSender) <==> t.from !in l
    ensures t.from in l ==>
              var a := l[t.from];
              && (Preflight(l, t) == Some(StaleSequence(a.nextSeq, t.fromSeq)) <==> t.fromSeq != a.nextSeq)
              && (Preflight(l, t) == Some(Insufficient(a.balance, t.amount))
                  <==> t.fromSeq == a.nextSeq && a.balance < t.amount)
              && (Preflight(l, t) == Some(SequenceExhausted(t.from))
                  <==> t.fromSeq == a.nextSeq == MAX_U64 && t.amount <= a.balance)
              && (Preflight(l, t) == Some(BalanceOverflow(t.to, Balance(l, t.to), t.amount))
                  <==> t.fromSeq == a.nextSeq < MAX_U64 && t.amount <= a.balance && t.from != t.to
                       && Balance(l, t.to) + t.amount > MAX_U128)
  {
  }

  /** Debit, credit and advance the sender's sequence, or reject and change nothing. */
  function Apply(l: Ledger, t: Transfer): (r: Result<Ledger, Reject>) {
    match Preflight(l, t)
    case Some(reject) => Err(reject)
    case None =>
      var sender := l[t.from];
      if t.from == t.to then
        Ok(l[t.from := sender.(nextSeq := sender.nextSeq + 1)])
      else
        var credited := Balance(l, t.to) + t.amount;
        var debited := l[t.from := Account(sender.balance - t.amount, sender.nextSeq + 1)];
        Ok(debited[t.to := Account(credited, NextSeq(l, t.to))])
  }

  /** Total value held by all accounts. */
  ghost function Supply(l: Ledger): (total: nat)
    decreases |l|
  {
    if l == map[] then 0
    else
      var id :| id in l;
      assert |l - {id}| < |l| by { assert l.Keys == (l - {id}).Keys + {id}; }
      l[id].balance + Supply(l - {id})
  }

  /** The total does not depend on the order in which accounts are added up. */
  lemma {:induction false} SupplySplit(l: Ledger, id: AccountId)
    requires id in l
    ensures Supply(l) == l[id].balance + Supply(l - {id})
    decreases |l|
  {
    assert l != map[];
    var first :| first in l && Supply(l) == l[first].balance + Supply(l - {first});
    assert |l - {first}| < |l| by { assert l.Keys == (l - {first}).Keys + {first}; }
    if first != id {
      SupplySplit(l - {first}, id);
      assert |l - {id}| < |l| by { assert l.Keys == (l - {id}).Keys + {id}; }
      SupplySplit(l - {id}, first);
      assert l - {first} - {id} == l - {id} - {first};
    }
  }

  /** Overwriting one balance moves the total by the difference. */
  lemma SupplyUpdate(l: Ledger, id: AccountId, a: Account)
    ensures Supply(l[id := a]) == Supply(l) + a.balance - Balance(l, id)
  {
    var l' := l[id := a];
    SupplySplit(l', id);
    if id in l {
      SupplySplit(l, id);
      assert l' - {id} == l - {id};
    } else {
      assert l' - {id} == l;
    }
  }

  /** A committed transfer conserves value exactly, spends exactly one sequence number of its
      sender, and touches no other account's sequence. */
  lemma ApplyConserves(l: Ledger, t: Transfer)
    requires Apply(l, t).Ok?
    ensures var l' := Apply(l, t).value;
            && Supply(l') == Supply(l)
            && t.fromSeq == NextSeq(l, t.from)
            && NextSeq(l', t.from) == t.fromSeq + 1
            && (forall id :: id != t.from ==> NextSeq(l', id) == NextSeq(l, id))
            && (t.from != t.to ==> Balance(l', t.from) == Balance(l, t.from) - t.amount
                                   && Balance(l', t.to) == Balance(l, t.to) + t.amount)
            && (forall id :: id != t.from && id != t.to ==> Balance(l', id) == Balance(l, id))
            && l'.Keys == l.Keys + {t.to}
  {
    var sender := l[t.from];
    if t.from == t.to {
      SupplyUpdate(l, t.from, sender.(nextSeq := sender.nextSeq + 1));
    } else {
      var debit := Account(sender.balance - t.amount, sender.nextSeq + 1);
      SupplyUpdate(l, t.from, debit);
      SupplyUpdate(l[t.from := debit], t.to, Account(Balance(l, t.to) + t.amount, NextSeq(l, t.to)));
    }
  }

  /** In a ledger whose whole supply fits the balance width, crediting can never overflow. */
  lemma SupplyBoundsCredit(l: Ledger, t: Transfer)
    requires Supply(l) <= MAX_U128
    ensures !(Preflight(l, t).Some? && Preflight(l, t).value.BalanceOverflow?)
  {
    if t.from in l && t.from != t.to && t.to in l {
      SupplySplit(l, t.from);
      SupplySplit(l - {t.from}, t.to);
    }
  }

  function SumBalances(entries: seq<(AccountId, Account)>): (total: nat) {
    if entries == [] then 0
    else SumBalances(entries[..|entries| - 1]) + entries[|entries| - 1].1.balance
  }

  /** Rebuild a ledger from snapshot entries, refusing a duplicate or an unrepresentable total. */
  function Restore(entries: seq<(AccountId, Account)>): (r: Result<Ledger, GenesisError>) {
    if entries == [] then Ok(map[])
    else
      var (id, account) := entries[|entries| - 1];
      match Restore(entries[..|entries| - 1])
      case Err(e) => Err(e)
      case Ok(l) =>
        if SumBalances(entries) > MAX_U128 then Err(TotalSupplyOverflow)
        else if id in l then Err(DuplicateAccount(id))
        else Ok(l[id := account])
  }

  /** A listing's balances add up to the supply. */
  lemma {:induction false} ListingTotals(entries: seq<(AccountId, Account)>, l: Ledger)
    requires Enumerates(entries, l)
    ensures SumBalances(entries) == Supply(l)
    decreases |entries|
  {
    if entries == [] {
      assert l == map[];
    } else {
      EnumerationShrinks(entries, l);
      SupplySplit(l, entries[|entries| - 1].0);
      ListingTotals(entries[..|entries| - 1], l - {entries[|entries| - 1].0});
    }
  }

  /** Any listing of a ledger with a representable supply restores to exactly that ledger. */
  lemma {:induction false} RestoreEnumeration(entries: seq<(AccountId, Account)>, l: Ledger)
    requires Enumerates(entries, l)
    requires Supply(l) <= MAX_U128
    ensures Restore(entries) == Ok(l)
    decreases |entries|
  {
    ListingTotals(entries, l);
    if entries == [] {
      assert l == map[];
    } else {
      var id := entries[|entries| - 1].0;
      EnumerationShrinks(entries, l);
      SupplySplit(l, id);
      RestoreEnumeration(entries[..|entries| - 1], l - {id});
      assert l == (l - {id})[id := entries[|entries| - 1].1];
    }
  }

  /** A listing restores exactly if no account occurs twice and the total is representable, and then to the ledger
      it lists; each error names a defect. */
  lemma {:induction false} RestoreExactly(entries: seq<(AccountId, Account)>)
    ensures Restore(entries).Ok? <==>
              && (forall i, j :: 0 <= i < j < |entries| ==> entries[i].0 != entries[j].0)
              && SumBalances(entries) <= MAX_U128
    ensures match Restore(entries)
            case Ok(l) => Enumerates(entries, l) && Supply(l) == SumBalances(entries)
            case Err(DuplicateAccount(id)) =>
              exists i, j :: 0 <= i < j < |entries| && entries[i].0 == entries[j].0 == id
            case Err(TotalSupplyOverflow) => SumBalances(entries) > MAX_U128
    decreases |entries|
  {
    if entries != [] {
      var init, last := entries[..|entries| - 1], entries[|entries| - 1];
      RestoreExactly(init);
      assert entries == init + [last];
      OneMoreEntry(init, last);
      if Restore(init).Ok? {
        RestoreOneMore(init, last, Restore(init).value);
      }
      hide Enumerates, Supply;
    }
  }

  lemma OneMoreEntry(init: seq<(AccountId, Account)>, last: (AccountId, Account))
    ensures (forall i, j :: 0 <= i < j < |init + [last]| ==> (init + [last])[i].0 != (init + [last])[j].0)
            <==> && (forall i, j :: 0 <= i < j < |init| ==> init[i].0 != init[j].0)
                 && !(exists i :: 0 <= i < |init| && init[i].0 == last.0)
    ensures SumBalances(init + [last]) == SumBalances(init) + last.1.balance
  {
    var all := init + [last];
    assert all[..|init|] == init;
    hide SumBalances;
    if forall i, j :: 0 <= i < j < |all| ==> all[i].0 != all[j].0 {
      assert all[|init|] == last;
      forall i, j | 0 <= i < j < |init|
        ensures init[i].0 != init[j].0
      {
        assert all[i] == init[i] && all[j] == init[j];
      }
      forall i | 0 <= i < |init|
        ensures init[i].0 != last.0
      {
        assert all[i] == init[i];
      }
    }
  }

  lemma RestoreOneMore(init: seq<(AccountId, Account)>, last: (AccountId, Account), l: Ledger)
    requires Enumerates(init, l) && Supply(l) == SumBalances(init)
    ensures last.0 in l <==> exists i :: 0 <= i < |init| && init[i].0 == last.0
    ensures last.0 !in l ==>
              && Enumerates(init + [last], l[last.0 := last.1])
              && Supply(l[last.0 := last.1]) == SumBalances(init) + last.1.balance
  {
    ListedKeys(init, l, last.0);
    if last.0 !in l {
      EnumerationGrows(init, l, last.0, last.1);
    }
    SupplyUpdate(l, last.0, last.1);
    hide Enumerates, Supply, SumBalances;
  }
}
