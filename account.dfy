/**
 * One bank account: its number, its holder's name and its balance, the two
 * guarded balance mutators, and the serialisation to and from the plain
 * record (a JSON object) the bank persists.
 */
module Accounts {

  /** A JSON scalar as it appears in a persisted account record. */
  datatype JsonValue = Str(text: string) | Num(number: real)

  /** A JSON object: field name to value. */
  type Record = map<string, JsonValue>

  const AccountNumberKey: string := "account_number"
  const NameKey: string := "name"
  const BalanceKey: string := "balance"

  /** The fields `from_dict` reads are present, each of the kind the account keeps. */
  predicate WellFormed(r: Record) {
    && AccountNumberKey in r && r[AccountNumberKey].Str?
    && NameKey in r && r[NameKey].Str?
    && BalanceKey in r && r[BalanceKey].Num?
  }

  /** The value of an account's three fields at one moment. */
  datatype AccountData = AccountData(accountNumber: string, name: string, balance: real)

  /** The account number a well-formed record carries. */
  function NumberOf(r: Record): string
    requires WellFormed(r)
  {
    r[AccountNumberKey].text
  }

  /** The object `to_dict` builds: exactly the three fields. */
  function Encode(a: AccountData): (r: Record)
    ensures WellFormed(r)
    ensures r.Keys == {AccountNumberKey, NameKey, BalanceKey}
  {
    map[AccountNumberKey := Str(a.accountNumber), NameKey := Str(a.name), BalanceKey := Num(a.balance)]
  }

  /** The fields `from_dict` takes from a record; other fields are ignored. */
  function Decode(r: Record): AccountData
    requires WellFormed(r)
  {
    AccountData(r[AccountNumberKey].text, r[NameKey].text, r[BalanceKey].number)
  }

  /** A field other than the three `from_dict` reads does not change the account it builds. */
  lemma DecodeIgnoresExtra(r: Record, k: string, x: JsonValue)
    requires WellFormed(r) && k !in {AccountNumberKey, NameKey, BalanceKey}
    ensures WellFormed(r[k := x]) && Decode(r[k := x]) == Decode(r)
  {
  }

  /** Decoding an encoded account gives back the same three fields. */
  lemma DecodeEncode(a: AccountData)
    ensures Decode(Encode(a)) == a
  {
  }

  /** A record holding exactly the three fields is the encoding of its decoding. */
  lemma EncodeDecode(r: Record)
    requires WellFormed(r) && r.Keys == {AccountNumberKey, NameKey, BalanceKey}
    ensures Encode(Decode(r)) == r
  {
  }

  class Account {
    const accountNumber: string
    const name: string
    var balance: real

    /** A new account; the balance is zero unless given. */
    constructor (accountNumber: string, name: string, balance: real := 0.0)
      ensures View() == AccountData(accountNumber, name, balance)
    {
      this.accountNumber := accountNumber;
      this.name := name;
      this.balance := balance;
    }

    /** The account a persisted record describes. */
    constructor FromDict(r: Record)
      requires WellFormed(r)
      ensures View() == Decode(r)
    {
      accountNumber := r[AccountNumberKey].text;
      name := r[NameKey].text;
      balance := r[BalanceKey].number;
    }

    function View(): AccountData
      reads this
    {
      AccountData(accountNumber, name, balance)
    }

    /** Adds a positive amount; any other amount is refused and changes nothing. */
    method Deposit(amount: real) returns (ok: bool)
      modifies this
      ensures ok <==> amount > 0.0
      ensures balance == if ok then old(balance) + amount else old(balance)
      ensures old(balance) >= 0.0 ==> balance >= 0.0
    {
      if amount > 0.0 {
        balance := balance + amount;
        ok := true;
      } else {
        ok := false;
      }
    }

    /**
     * Takes out a positive amount that the balance covers; a non-positive
     * amount or one above the balance is refused and changes nothing.
     */
    method Withdraw(amount: real) returns (ok: bool)
      modifies this
      ensures ok <==> 0.0 < amount <= old(balance)
      ensures balance == if ok then old(balance) - amount else old(balance)
      ensures old(balance) >= 0.0 ==> balance >= 0.0
    {
      if amount <= 0.0 {
        return false;
      }
      if amount > balance {
        return false;
      }
      balance := balance - amount;
      ok := true;
    }

    method GetBalance() returns (b: real)
      ensures b == balance
    {
      b := balance;
    }

    /** The record `from_dict` turns back into this very account. */
    function ToDict(): (r: Record)
      reads this
      ensures WellFormed(r) && r.Keys == {AccountNumberKey, NameKey, BalanceKey}
      ensures Decode(r) == View()
    {
      Encode(View())
    }
  }
}
