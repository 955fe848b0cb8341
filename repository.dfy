/** The account ledger kept by the repository: one signed-in user's account
    documents and transaction records. Each `runTransaction { ... }` block
    is one atomic step of a method below; the store's optimistic retry and
    concurrent writers are not modelled. */
module Repository {
  import opened Data
  import opened Amounts

  /** What became of a ledger operation. Income, expense and the account
      writes raise the failures as exceptions; `transfer` catches and logs
      them; in every case the effect on the store is what the methods state. */
  datatype Outcome =
    | Done
    | NotSignedIn
    | InvalidAmount
    | AccountNotFound
    | InsufficientFunds
    | RecordNotSaved

  /** Sum of the balances of a set of account documents. */
  ghost function BalanceSum(m: map<string, Account>): int
    decreases |m|
  {
    if m == map[] then 0
    else
      var k :| k in m;
      m[k].balance + BalanceSum(m - {k})
  }

  lemma {:induction false} BalanceSumRemove(m: map<string, Account>, k: string)
    requires k in m
    ensures BalanceSum(m) == m[k].balance + BalanceSum(m - {k})
    decreases |m|
  {
    var j :| j in m && BalanceSum(m) == m[j].balance + BalanceSum(m - {j});
    if j != k {
      assert (m - {j}) - {k} == (m - {k}) - {j};
      assert |m - {j}| == |m| - 1 && |m - {k}| == |m| - 1;
      BalanceSumRemove(m - {j}, k);
      BalanceSumRemove(m - {k}, j);
    }
  }

  /** Replacing one document changes the sum by the change of its balance. */
  lemma BalanceSumUpdate(m: map<string, Account>, k: string, a: Account)
    requires k in m
    ensures BalanceSum(m[k := a]) == BalanceSum(m) - m[k].balance + a.balance
  {
    BalanceSumRemove(m, k);
    BalanceSumRemove(m[k := a], k);
    assert m[k := a] - {k} == m - {k};
  }

  /** The balance a transaction reads from a document: `getDouble("balance")
      ?: 0.0`, where a missing document gives an empty snapshot. */
  function ReadBalance(m: map<string, Account>, id: string): (b: int)
    ensures id in m ==> b == m[id].balance
    ensures id !in m ==> b == 0
  {
    if id in m then m[id].balance else 0
  }

  /** The record `addIncome` or `addExpense` appends. */
  function EntryRecord(kind: TransactionType, amount: int, account: Account,
                       category: string, date: string, notes: string): TransactionData
  {
    TransactionData(kind, account.cardName, amount, category, date, notes, None)
  }

  /** The outgoing leg of a transfer. Its `targetAccount` is left unset. */
  function OutgoingLeg(amount: int, source: Account, target: Account, date: string): TransactionData {
    TransactionData(TransferOutgoing, source.cardName, amount, "Transfer", date,
                    "Transfer to " + target.cardName, None)
  }

  /** The incoming leg of a transfer: it names the receiving account in
      `account` and leaves `targetAccount` unset. */
  function IncomingLeg(amount: int, source: Account, target: Account, date: string): TransactionData {
    TransactionData(TransferIncoming, target.cardName, amount, "Transfer", date,
                    "Transfer from " + source.cardName, None)
  }

  /** The two legs mirror each other: same amount, category and no target
      account, one debit of the source and one credit of the target, whose
      effects on their accounts cancel out. */
  lemma LegsMirror(amount: int, source: Account, target: Account, outDate: string, inDate: string)
    ensures var o, i := OutgoingLeg(amount, source, target, outDate), IncomingLeg(amount, source, target, inDate);
      && o.kind == TransferOutgoing && i.kind == TransferIncoming
      && o.amount == amount && i.amount == amount
      && o.category == "Transfer" && i.category == "Transfer"
      && o.account == source.cardName && i.account == target.cardName
      && o.targetAccount == None && i.targetAccount == None
      && SignedAmount(o) + SignedAmount(i) == 0
  {
  }

  /** The two balance writes of a funded transfer, in the order the
      transaction issues them; both values come from the reads made before
      either write. */
  function Transferred(m: map<string, Account>, sourceId: string, targetId: string, amount: int): (r: map<string, Account>)
    requires sourceId in m && targetId in m
    ensures r.Keys == m.Keys
    ensures sourceId != targetId ==>
      && r[sourceId] == m[sourceId].(balance := m[sourceId].balance - amount)
      && r[targetId] == m[targetId].(balance := m[targetId].balance + amount)
    ensures forall id :: id in m && id != sourceId && id != targetId ==> r[id] == m[id]
  {
    var sourceBalance := m[sourceId].balance;
    var targetBalance := m[targetId].balance;
    m[sourceId := m[sourceId].(balance := sourceBalance - amount)]
     [targetId := m[targetId].(balance := targetBalance + amount)]
  }

  /** Each balance write of a funded transfer moves its account by the
      signed amount of the leg recorded for it. */
  lemma TransferredFollowsLegs(m: map<string, Account>, source: Account, target: Account,
                               amount: int, outDate: string, inDate: string)
    requires source.id in m && target.id in m && source.id != target.id
    ensures Transferred(m, source.id, target.id, amount)[source.id].balance
      == m[source.id].balance + SignedAmount(OutgoingLeg(amount, source, target, outDate))
    ensures Transferred(m, source.id, target.id, amount)[target.id].balance
      == m[target.id].balance + SignedAmount(IncomingLeg(amount, source, target, inDate))
  {
  }

  /** Between two distinct accounts a transfer moves money without creating
      or destroying any. */
  lemma TransferConservesTotal(m: map<string, Account>, sourceId: string, targetId: string, amount: int)
    requires sourceId in m && targetId in m && sourceId != targetId
    ensures BalanceSum(Transferred(m, sourceId, targetId, amount)) == BalanceSum(m)
  {
    var m1 := m[sourceId := m[sourceId].(balance := m[sourceId].balance - amount)];
    BalanceSumUpdate(m, sourceId, m1[sourceId]);
    BalanceSumUpdate(m1, targetId, m[targetId].(balance := m[targetId].balance + amount));
  }

  /** The same two writes aimed at ONE document: the second overwrites the
      first with the balance read plus the amount, so the account and the
      total both grow by the amount. */
  lemma SelfTransferInflates(m: map<string, Account>, id: string, amount: int)
    requires id in m
    ensures Transferred(m, id, id, amount)[id].balance == m[id].balance + amount
    ensures BalanceSum(Transferred(m, id, id, amount)) == BalanceSum(m) + amount
  {
    assert Transferred(m, id, id, amount) == m[id := m[id].(balance := m[id].balance + amount)];
    BalanceSumUpdate(m, id, m[id].(balance := m[id].balance + amount));
  }

  /** The account seeded at registration: a Cash card named "General". */
  function GeneralAccount(id: string, now: int): Account {
    Account(id, "Cash", "0000 0000 0000 0000", "General", 0, "Green", now)
  }

  class UserRepository {
    /** The signed-in user's id, if any; every collection is scoped to it. */
    var currentUser: Option<string>
    /** The user's `accounts` collection, by document id. */
    var accounts: map<string, Account>
    /** The user's `transactions` collection, in the order records were added. */
    var ledger: seq<TransactionData>

    /** Every stored account carries its own document id. */
    ghost predicate Valid()
      reads this
    {
      forall id :: id in accounts ==> accounts[id].id == id
    }

    /** The account the caller passes was resolved from the account list by
        its name, so if it is stored, it is stored under that name. */
    ghost predicate NameLinked(account: Account)
      reads this
    {
      account.id in accounts ==> accounts[account.id].cardName == account.cardName
    }

    /** A freshly registered user: signed in, one General account, no records. */
    constructor Register(userId: string, generalId: string, now: int)
      ensures Valid()
      ensures currentUser == Some(userId)
      ensures accounts == map[generalId := GeneralAccount(generalId, now)]
      ensures ledger == []
    {
      currentUser := Some(userId);
      accounts := map[generalId := GeneralAccount(generalId, now)];
      ledger := [];
    }

    method Logout()
      modifies this`currentUser
      ensures currentUser == None
    {
      currentUser := None;
    }

    /** `getAccountCards`: the user's stored accounts, none when signed out. */
    function GetAccountCards(): (r: set<Account>)
      reads this
      requires Valid()
      ensures forall a :: a in r <==> currentUser.Some? && a.id in accounts && accounts[a.id] == a
    {
      if currentUser.None? then {} else accounts.Values
    }

    /** `getTransactions`: the user's records, none when signed out. */
    function GetTransactions(): (r: seq<TransactionData>)
      reads this
      ensures currentUser.Some? ==> r == ledger
      ensures currentUser.None? ==> r == []
    {
      if currentUser.None? then [] else ledger
    }

    /** `getTotalBalance`: the sum over the user's accounts, 0 when signed out. */
    method GetTotalBalance() returns (total: int)
      ensures total == if currentUser.None? then 0 else BalanceSum(accounts)
    {
      if currentUser.None? {
        return 0;
      }
      total := 0;
      var remaining := accounts;
      while remaining != map[]
        invariant total + BalanceSum(remaining) == BalanceSum(accounts)
        decreases |remaining|
      {
        var k :| k in remaining;
        BalanceSumRemove(remaining, k);
        total := total + remaining[k].balance;
        remaining := remaining - {k};
      }
    }

    /** Shared body of `addIncome` (kind Income, sign +1) and `addExpense`
        (kind Expense, sign -1): one atomic read-modify-write of the balance,
        then a separate append of one record, which the store may refuse
        (`recordSaved` false). */
    method PostEntry(kind: TransactionType, amount: string, account: Account, category: string,
                     date: string, notes: string, recordSaved: bool) returns (outcome: Outcome)
      requires kind == Income || kind == Expense
      requires Valid() && NameLinked(account)
      modifies this`accounts, this`ledger
      ensures Valid()
      ensures outcome == NotSignedIn <==> currentUser.None?
      ensures outcome == InvalidAmount <==> currentUser.Some? && ParseAmount(amount).None?
      ensures outcome == AccountNotFound <==>
        currentUser.Some? && ParseAmount(amount).Some? && account.id !in old(accounts)
      ensures outcome == RecordNotSaved <==>
        currentUser.Some? && ParseAmount(amount).Some? && account.id in old(accounts) && !recordSaved
      ensures outcome == Done <==>
        currentUser.Some? && ParseAmount(amount).Some? && account.id in old(accounts) && recordSaved
      ensures outcome != InsufficientFunds
      ensures (outcome == NotSignedIn || outcome == InvalidAmount || outcome == AccountNotFound) ==>
        accounts == old(accounts) && ledger == old(ledger)
      ensures (outcome == Done || outcome == RecordNotSaved) ==>
        var value := ParseAmount(amount).value;
        var delta := if kind == Income then value else -value;
        && account.id in old(accounts)
        && accounts == old(accounts)[account.id := old(accounts)[account.id].(balance := old(accounts)[account.id].balance + delta)]
        && BalanceSum(accounts) == BalanceSum(old(accounts)) + delta
      ensures outcome == RecordNotSaved ==> ledger == old(ledger)
      ensures outcome == Done ==>
        var record := EntryRecord(kind, ParseAmount(amount).value, account, category, date, notes);
        && ledger == old(ledger) + [record]
        && record.account == accounts[account.id].cardName
        && BalanceSum(accounts) == BalanceSum(old(accounts)) + SignedAmount(record)
    {
      if currentUser.None? {
        return NotSignedIn;
      }
      var parsed := ParseAmount(amount);
      if parsed.None? {
        return InvalidAmount;
      }
      if account.id !in accounts {
        return AccountNotFound;
      }
      var value := parsed.value;
      var delta := if kind == Income then value else -value;
      var current := ReadBalance(accounts, account.id);
      var updated := accounts[account.id].(balance := current + delta);
      BalanceSumUpdate(accounts, account.id, updated);
      accounts := accounts[account.id := updated];
      if !recordSaved {
        return RecordNotSaved;
      }
      ledger := ledger + [EntryRecord(kind, value, account, category, date, notes)];
      outcome := Done;
    }

    /** `addIncome`: credit the account, then append one INCOME record. */
    method AddIncome(amount: string, account: Account, category: string, date: string,
                     notes: string, recordSaved: bool) returns (outcome: Outcome)
      requires Valid() && NameLinked(account)
      modifies this`accounts, this`ledger
      ensures Valid()
      ensures outcome == NotSignedIn <==> currentUser.None?
      ensures outcome == InvalidAmount <==> currentUser.Some? && ParseAmount(amount).None?
      ensures outcome == AccountNotFound <==>
        currentUser.Some? && ParseAmount(amount).Some? && account.id !in old(accounts)
      ensures outcome == RecordNotSaved <==>
        currentUser.Some? && ParseAmount(amount).Some? && account.id in old(accounts) && !recordSaved
      ensures outcome == Done <==>
        currentUser.Some? && ParseAmount(amount).Some? && account.id in old(accounts) && recordSaved
      ensures outcome != InsufficientFunds
      ensures (outcome == NotSignedIn || outcome == InvalidAmount || outcome == AccountNotFound) ==>
        accounts == old(accounts) && ledger == old(ledger)
      ensures (outcome == Done || outcome == RecordNotSaved) ==>
        && account.id in old(accounts)
        && accounts == old(accounts)[account.id := old(accounts)[account.id].(balance := old(accounts)[account.id].balance + ParseAmount(amount).value)]
      ensures outcome == RecordNotSaved ==> ledger == old(ledger)
      ensures outcome == Done ==>
        var record := EntryRecord(Income, ParseAmount(amount).value, account, category, date, notes);
        && ledger == old(ledger) + [record]
        && BalanceSum(accounts) == BalanceSum(old(accounts)) + SignedAmount(record)
    {
      outcome := PostEntry(Income, amount, account, category, date, notes, recordSaved);
    }

    /** `addExpense`: debit the account, with no check that the balance stays
        non-negative, then append one EXPENSE record. */
    method AddExpense(amount: string, account: Account, category: string, date: string,
                      notes: string, recordSaved: bool) returns (outcome: Outcome)
      requires Valid() && NameLinked(account)
      modifies this`accounts, this`ledger
      ensures Valid()
      ensures outcome == NotSignedIn <==> currentUser.None?
      ensures outcome == InvalidAmount <==> currentUser.Some? && ParseAmount(amount).None?
      ensures outcome == AccountNotFound <==>
        currentUser.Some? && ParseAmount(amount).Some? && account.id !in old(accounts)
      ensures outcome == RecordNotSaved <==>
        currentUser.Some? && ParseAmount(amount).Some? && account.id in old(accounts) && !recordSaved
      ensures outcome == Done <==>
        currentUser.Some? && ParseAmount(amount).Some? && account.id in old(accounts) && recordSaved
      ensures outcome != InsufficientFunds
      ensures (outcome == NotSignedIn || outcome == InvalidAmount || outcome == AccountNotFound) ==>
        accounts == old(accounts) && ledger == old(ledger)
      ensures (outcome == Done || outcome == RecordNotSaved) ==>
        && account.id in old(accounts)
        && accounts == old(accounts)[account.id := old(accounts)[account.id].(balance := old(accounts)[account.id].balance - ParseAmount(amount).value)]
      ensures outcome == RecordNotSaved ==> ledger == old(ledger)
      ensures outcome == Done ==>
        var record := EntryRecord(Expense, ParseAmount(amount).value, account, category, date, notes);
        && ledger == old(ledger) + [record]
        && BalanceSum(accounts) == BalanceSum(old(accounts)) + SignedAmount(record)
    {
      outcome := PostEntry(Expense, amount, account, category, date, notes, recordSaved);
    }

    /** `transfer`: one atomic step that reads both balances and, when the
        source holds at least the amount, writes both. The two records are
        added without waiting for the store, so each may be lost
        (`outgoingSaved`, `incomingSaved`) while the transfer still counts
        as done. The clock is read once per leg. */
    method Transfer(amount: string, source: Account, target: Account,
                    outgoingDate: string, incomingDate: string,
                    outgoingSaved: bool, incomingSaved: bool) returns (outcome: Outcome)
      requires Valid() && NameLinked(source) && NameLinked(target)
      requires source.id != target.id
      modifies this`accounts, this`ledger
      ensures Valid()
      ensures outcome == InvalidAmount <==> ParseAmount(amount).None?
      ensures outcome == NotSignedIn <==> ParseAmount(amount).Some? && currentUser.None?
      ensures outcome == InsufficientFunds <==>
        && ParseAmount(amount).Some? && currentUser.Some?
        && ReadBalance(old(accounts), source.id) < ParseAmount(amount).value
      ensures outcome == AccountNotFound <==>
        && ParseAmount(amount).Some? && currentUser.Some?
        && ReadBalance(old(accounts), source.id) >= ParseAmount(amount).value
        && (source.id !in old(accounts) || target.id !in old(accounts))
      ensures outcome != RecordNotSaved
      ensures outcome == Done <==>
        && ParseAmount(amount).Some? && currentUser.Some?
        && ReadBalance(old(accounts), source.id) >= ParseAmount(amount).value
        && source.id in old(accounts) && target.id in old(accounts)
      ensures outcome != Done ==> accounts == old(accounts) && ledger == old(ledger)
      ensures outcome == Done ==>
        var value := ParseAmount(amount).value;
        && source.id in old(accounts) && target.id in old(accounts)
        && accounts == Transferred(old(accounts), source.id, target.id, value)
        && ledger == old(ledger)
                     + (if outgoingSaved then [OutgoingLeg(value, source, target, outgoingDate)] else [])
                     + (if incomingSaved then [IncomingLeg(value, source, target, incomingDate)] else [])
        && BalanceSum(accounts) == BalanceSum(old(accounts))
    {
      var parsed := ParseAmount(amount);
      if parsed.None? {
        return InvalidAmount;
      }
      if currentUser.None? {
        return NotSignedIn;
      }
      var value := parsed.value;
      var sourceBalance := ReadBalance(accounts, source.id);
      if sourceBalance < value {
        return InsufficientFunds;
      }
      if source.id !in accounts || target.id !in accounts {
        return AccountNotFound;
      }
      TransferConservesTotal(accounts, source.id, target.id, value);
      accounts := Transferred(accounts, source.id, target.id, value);
      if outgoingSaved {
        ledger := ledger + [OutgoingLeg(value, source, target, outgoingDate)];
      }
      if incomingSaved {
        ledger := ledger + [IncomingLeg(value, source, target, incomingDate)];
      }
      outcome := Done;
    }

    /** `addAccountCard`: store the card under the id the store generates,
        with its `id` field set to that id; "" when signed out. */
    method AddAccountCard(card: Account, newId: string) returns (id: string)
      requires Valid()
      requires newId !in accounts
      modifies this`accounts
      ensures Valid()
      ensures currentUser.None? ==> id == "" && accounts == old(accounts)
      ensures currentUser.Some? ==> id == newId && accounts == old(accounts)[newId := card.(id := newId)]
    {
      if currentUser.None? {
        return "";
      }
      accounts := accounts[newId := card.(id := newId)];
      id := newId;
    }

    /** `updateAccount`: overwrite the document at `card.id` with `card`,
        balance included and without a ledger record. */
    method UpdateAccount(card: Account) returns (outcome: Outcome)
      requires Valid()
      modifies this`accounts
      ensures Valid()
      ensures outcome == (if currentUser.None? then NotSignedIn else Done)
      ensures outcome == NotSignedIn ==> accounts == old(accounts)
      ensures outcome == Done ==> accounts == old(accounts)[card.id := card]
    {
      if currentUser.None? {
        return NotSignedIn;
      }
      accounts := accounts[card.id := card];
      outcome := Done;
    }

    /** `deleteAccount`: remove the document `accountId`; its records stay. */
    method DeleteAccount(accountId: string) returns (outcome: Outcome)
      requires Valid()
      modifies this`accounts
      ensures Valid()
      ensures outcome == (if currentUser.None? then NotSignedIn else Done)
      ensures outcome == NotSignedIn ==> accounts == old(accounts)
      ensures outcome == Done ==> accounts == old(accounts) - {accountId}
    {
      if currentUser.None? {
        return NotSignedIn;
      }
      accounts := accounts - {accountId};
      outcome := Done;
    }
  }
}
