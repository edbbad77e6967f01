/**
 * The bank: every account keyed by its account number, the generation of
 * fresh 8-digit account numbers, and the operations that look an account
 * up, change its balance and persist the whole set after each change.
 */
module Banking {
  import opened Wrappers
  import opened Decimal
  import opened Accounts
  import opened Storage

  /** The range `random.randint` draws account numbers from. */
  const LowestNumber: nat := 10000000
  const HighestNumber: nat := 99999999

  /** Eight decimal digits, the first of them not zero. */
  predicate IsAccountNumber(s: string) {
    |s| == 8 && IsNumeral(s) && s[0] != '0'
  }

  /** Every draw in range is shown as an account number. */
  lemma ShowIsAccountNumber(n: nat)
    requires LowestNumber <= n <= HighestNumber
    ensures IsAccountNumber(Show(n))
  {
    assert Pow10(7) == LowestNumber && Pow10(8) == HighestNumber + 1;
    ShowLength(n, 8);
  }

  /** The account numbers are exactly the shown forms of the draws that can occur. */
  lemma AccountNumberForm(s: string)
    ensures IsAccountNumber(s) <==> exists n: nat :: LowestNumber <= n <= HighestNumber && Show(n) == s
  {
    if IsAccountNumber(s) {
      ValueAbove(s);
      ValueBelow(s);
      ShowValue(s);
      assert Pow10(7) == LowestNumber && Pow10(8) == HighestNumber + 1;
      var n := Value(s);
      assert LowestNumber <= n <= HighestNumber && Show(n) == s;
    }
    if exists n: nat :: LowestNumber <= n <= HighestNumber && Show(n) == s {
      var n: nat :| LowestNumber <= n <= HighestNumber && Show(n) == s;
      ShowIsAccountNumber(n);
    }
  }

  /**
   * `number` is the first of the draws whose shown form is not among `keys`
   * (what the retry loop of `generate_account_number` returns).
   */
  ghost predicate FirstFree(draws: seq<int>, keys: set<string>, number: string) {
    exists i :: 0 <= i < |draws| && 0 <= draws[i] && Show(draws[i]) == number && number !in keys &&
      forall j :: 0 <= j < i && 0 <= draws[j] ==> Show(draws[j]) in keys
  }

  /**
   * `after` is `before` with exactly one more write, and that write holds
   * one three-field record per account of `v` and loads back to `v`.
   */
  ghost predicate SavedOnce(before: seq<seq<Record>>, after: seq<seq<Record>>, v: AccountMap) {
    |after| == |before| + 1 && after[..|before|] == before && Persists(after[|before|], v)
  }

  class Bank {
    var accounts: map<string, Account>
    /** The accounts' current fields, by key. */
    ghost var view: AccountMap
    /** Every list `save_data` has written, oldest first. */
    ghost var writes: seq<seq<Record>>

    /**
     * Every key is the account number of the account stored under it, and
     * `view` holds each account's current fields.
     */
    ghost predicate Valid()
      reads this, accounts.Values
      ensures Valid() ==> KeysMatch(view)
    {
      && view.Keys == accounts.Keys
      && forall k :: k in accounts ==> accounts[k].accountNumber == k && accounts[k].View() == view[k]
    }

    /**
     * A bank over what was read from the backing store: `None` when the
     * store is absent or unparseable, both of which leave the bank empty.
     */
    constructor (stored: Option<seq<Record>>)
      requires stored.Some? ==> AllWellFormed(stored.value)
      ensures Valid() && writes == []
      ensures view == if stored.Some? then Loaded(map[], stored.value) else map[]
      ensures fresh(accounts.Values)
    {
      accounts := map[];
      view := map[];
      writes := [];
      new;
      if stored.Some? {
        LoadData(stored.value);
      }
    }

    /** Inserts the records in order, each keyed by its own account number. */
    method LoadData(data: seq<Record>)
      requires Valid() && AllWellFormed(data)
      modifies this
      ensures Valid() && writes == old(writes)
      ensures view == Loaded(old(view), data)
      ensures fresh(accounts.Values - old(accounts.Values))
    {
      var i := 0;
      while i < |data|
        invariant 0 <= i <= |data|
        invariant Valid() && writes == old(writes)
        invariant view == Loaded(old(view), data[..i])
        invariant fresh(accounts.Values - old(accounts.Values))
      {
        var account := new Account.FromDict(data[i]);
        Insert(account);
        assert data[..i + 1][..i] == data[..i];
        i := i + 1;
      }
      assert data[..|data|] == data;
    }

    /** Stores `account` under its own number, replacing what was stored there. */
    method Insert(account: Account)
      requires Valid()
      modifies this`accounts, this`view
      ensures Valid()
      ensures accounts == old(accounts)[account.accountNumber := account]
      ensures view == old(view)[account.accountNumber := account.View()]
    {
      accounts := accounts[account.accountNumber := account];
      view := view[account.accountNumber := account.View()];
    }

    /**
     * Retries the draws in order until one is not yet a key; `draws` stands
     * for the successive values of `random.randint(10000000, 99999999)`.
     */
    method GenerateAccountNumber(draws: seq<int>) returns (number: string)
      requires forall i :: 0 <= i < |draws| ==> LowestNumber <= draws[i] <= HighestNumber
      requires exists i :: 0 <= i < |draws| && Show(draws[i]) !in accounts
      ensures IsAccountNumber(number) && number !in accounts
      ensures FirstFree(draws, accounts.Keys, number)
    {
      var i := 0;
      while Show(draws[i]) in accounts
        invariant 0 <= i < |draws|
        invariant forall j :: 0 <= j < i ==> Show(draws[j]) in accounts
        invariant exists w :: i <= w < |draws| && Show(draws[w]) !in accounts
        decreases |draws| - i
      {
        i := i + 1;
      }
      number := Show(draws[i]);
      ShowIsAccountNumber(draws[i]);
    }

    /** The list comprehension of `save_data`: one record per account. */
    method SerializeAccounts() returns (data: seq<Record>)
      requires Valid()
      ensures Serializes(data, view)
      ensures |data| == |accounts|
    {
      var rest := accounts.Keys;
      data := [];
      while rest != {}
        invariant rest <= accounts.Keys
        invariant |data| + |rest| == |accounts|
        invariant ListsSome(data, view, accounts.Keys - rest)
        decreases |rest|
      {
        var k :| k in rest;
        var r := accounts[k].ToDict();
        EncodeDecode(r);
        ListsSomeStep(data, view, accounts.Keys - rest, r);
        data := data + [r];
        assert accounts.Keys - rest + {k} == accounts.Keys - (rest - {k});
        rest := rest - {k};
      }
      ListsSomeAll(data, view);
    }

    /** Writes the listing of every account. */
    method SaveData()
      requires Valid()
      modifies this`writes
      ensures Valid()
      ensures SavedOnce(old(writes), writes, view)
    {
      var data := SerializeAccounts();
      SerializesPersists(data, view);
      writes := writes + [data];
    }

    /**
     * Opens an account for `name` under the first free draw, with a zero
     * balance, leaves every other account as it was, and saves once.
     */
    method CreateAccount(name: string, draws: seq<int>) returns (number: string)
      requires Valid()
      requires forall i :: 0 <= i < |draws| ==> LowestNumber <= draws[i] <= HighestNumber
      requires exists i :: 0 <= i < |draws| && Show(draws[i]) !in accounts
      modifies this
      ensures Valid()
      ensures IsAccountNumber(number) && number !in old(accounts)
      ensures FirstFree(draws, old(accounts).Keys, number)
      ensures |accounts| == |old(accounts)| + 1
      ensures number in accounts && fresh(accounts[number])
      ensures accounts == old(accounts)[number := accounts[number]]
      ensures view == old(view)[number := AccountData(number, name, 0.0)]
      ensures Solvent(old(view)) ==> Solvent(view)
      ensures SavedOnce(old(writes), writes, view)
    {
      number := GenerateAccountNumber(draws);
      var account := new Account(number, name);
      Insert(account);
      SaveData();
    }

    /** The account stored under `number`, if any. */
    function FindAccount(number: string): (r: Option<Account>)
      reads this
      ensures r.Some? <==> number in accounts
      ensures r.Some? ==> r.value == accounts[number]
      ensures Valid() && r.Some? ==> r.value.accountNumber == number
    {
      if number in accounts then Some(accounts[number]) else None
    }

    /**
     * Deposits into the account stored under `number`; an unknown number or
     * a refused amount changes nothing and saves nothing, and a deposit the
     * account accepts changes only that account's balance and saves once.
     */
    method Deposit(number: string, amount: real)
      requires Valid()
      modifies this, if number in accounts then {accounts[number]} else {}
      ensures Valid() && accounts == old(accounts)
      ensures var ok := number in old(accounts) && amount > 0.0;
        && view == (if ok then old(view)[number := old(view)[number].(balance := old(view)[number].balance + amount)]
                    else old(view))
        && (if ok then SavedOnce(old(writes), writes, view) else writes == old(writes))
      ensures Solvent(old(view)) ==> Solvent(view)
    {
      var account := FindAccount(number);
      if account.Some? {
        var changed := account.value;
        var ok := changed.Deposit(amount);
        if ok {
          view := view[number := changed.View()];
          assert Valid() by {
            forall k | k in accounts
              ensures accounts[k].accountNumber == k && accounts[k].View() == view[k]
            {
              if k != number {
                assert accounts[k].accountNumber != changed.accountNumber;
              }
            }
          }
          SaveData();
        }
      }
    }

    /**
     * Withdraws from the account stored under `number`; an unknown number,
     * a non-positive amount or one above the balance changes nothing and
     * saves nothing, and an accepted withdrawal changes only that account's
     * balance and saves once.
     */
    method Withdraw(number: string, amount: real)
      requires Valid()
      modifies this, if number in accounts then {accounts[number]} else {}
      ensures Valid() && accounts == old(accounts)
      ensures var ok := number in old(accounts) && 0.0 < amount <= old(view)[number].balance;
        && view == (if ok then old(view)[number := old(view)[number].(balance := old(view)[number].balance - amount)]
                    else old(view))
        && (if ok then SavedOnce(old(writes), writes, view) else writes == old(writes))
      ensures Solvent(old(view)) ==> Solvent(view)
    {
      var account := FindAccount(number);
      if account.Some? {
        var changed := account.value;
        var ok := changed.Withdraw(amount);
        if ok {
          view := view[number := changed.View()];
          assert Valid() by {
            forall k | k in accounts
              ensures accounts[k].accountNumber == k && accounts[k].View() == view[k]
            {
              if k != number {
                assert accounts[k].accountNumber != changed.accountNumber;
              }
            }
          }
          SaveData();
        }
      }
    }

    /** The number, name and balance shown for `number`, or `None` if no account has it. */
    method CheckBalance(number: string) returns (shown: Option<AccountData>)
      requires Valid()
      ensures shown.Some? <==> number in view
      ensures shown.Some? ==> shown.value == view[number] && shown.value.accountNumber == number
    {
      var account := FindAccount(number);
      if account.Some? {
        var balance := account.value.GetBalance();
        shown := Some(AccountData(account.value.accountNumber, account.value.name, balance));
      } else {
        shown := None;
      }
    }
  }

  /**
   * A session: open an account for Alice, deposit 100, withdraw 40, try to
   * withdraw 1000, and look up a number no account can have.
   */
  method AliceSession() {
    var bank := new Bank(None);
    var draws := [12345678];
    assert bank.accounts == map[] && Show(draws[0]) !in bank.accounts;
    var number := bank.CreateAccount("Alice", draws);
    assert bank.view[number] == AccountData(number, "Alice", 0.0);
    bank.Deposit(number, 100.0);
    assert bank.view[number].balance == 100.0;
    bank.Withdraw(number, 40.0);
    assert bank.view[number].balance == 60.0;
    ghost var saves := |bank.writes|;
    bank.Withdraw(number, 1000.0);
    assert bank.view[number].balance == 60.0 && |bank.writes| == saves;
    var shown := bank.CheckBalance("00000000");
    assert "00000000"[0] == '0';
    assert shown == None;
  }
}
