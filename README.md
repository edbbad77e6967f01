# Console banking core, modelled in Dafny

A small console banking program keeps bank accounts in memory. Each account
has an account number, a holder name and a balance. A bank holds the accounts
in a dictionary keyed by account number. It can open an account under a fresh
random 8-digit number with a zero balance, deposit into and withdraw from an
account, and show an account's balance. After every change that succeeds, it
rewrites the whole set of accounts to a JSON file, and it reads that file back
at start-up.

This project models that core (the `Account` and `Bank` classes of `main.py`)
and proves properties of it:

- `decimal.dfy` (module `Decimal`): `str` of a non-negative integer (`Show`),
  its inverse (`Value`), and the digit-count facts that make a draw from
  `randint(10000000, 99999999)` an 8-digit numeral without a leading zero.
- `account.dfy` (module `Accounts`): the persisted record (a JSON object, as a
  map from field name to `JsonValue`), its encoding and decoding, and
  `class Account`. `accountNumber` and `name` are `const` fields, because the
  source never reassigns them, so no operation can change them. `balance` is a
  `var`, which `Deposit` and `Withdraw` update in place.
- `storage.dfy` (module `Storage`): two steps on values. `Loaded` is the
  record-insertion loop of `load_data`: records go in one by one, each keyed
  by its own account number, so a later record replaces an earlier one.
  `Serializes` says what the list built in `save_data` must be: for each
  account, exactly one record, the one `to_dict` builds for it. The lemmas prove
  that loading what was saved gives back the accounts that were saved, and,
  conversely, that records with three fields each and distinct numbers are
  a listing of the accounts they load to.
- `bank.dfy` (module `Banking`): `class Bank`. It holds `accounts`, a map from
  number to `Account` object, and two ghost fields:
  - `view`: each account's current fields;
  - `writes`: every list `save_data` has written, oldest first. This stands in
    for the JSON file and for a count of saves.

  `Valid()` is the bank's invariant: every key equals its account's
  `accountNumber`, and `view` matches the account objects. Because of this
  invariant, two keys never share one account object, so a balance change
  through one key touches no other entry.
- `wrappers.dfy` (module `Wrappers`): `Option`, used for lookups that find
  nothing and for a store that could not be read.

Amounts are `real` numbers rather than floats. `Account.View`,
`Accounts.Decode` and `Decimal.Value` are plain functions, with no contract
of their own. `Storage.Loaded` states only that loading removes no account.
The lemmas below state what these functions mean.
`Banking.AliceSession` is a client method. It replays an example session:
create an account, deposit 100, withdraw 40, and try to withdraw 1000, which
fails and leaves the balance at 60. Then it looks up "00000000" and finds no
account. The method is proved from the operations' contracts alone.

Three choices follow the code as written:
- `create_account` does not check the holder's name. Only the console loop
  rejects an empty name, so `CreateAccount` has no requirement on `name`.
- `from_dict` does no validation and raises on a missing field. The model
  requires well-formed records (`WellFormed`) rather than adding an error
  result.
- Balances loaded from the file are not checked. So non-negativity is stated
  as a property that loading and every operation preserve (`Solvent`), not as
  part of `Valid()`.

## Model

| member | source | states |
|---|---|---|
| `Decimal.Show` | main.py:82 | `str(n)` is a non-empty string of decimal digits, and its first character is `0` exactly when `n` is zero |
| `Decimal.ValueShow` | main.py:82 | reading back the digits `str(n)` writes gives `n` again |
| `Decimal.ShowInjective` | main.py:82 | distinct draws give distinct account-number strings |
| `Decimal.ShowLength` | main.py:82 | a number with `k` decimal digits is written with exactly `k` characters |
| `Decimal.ShowValue` | main.py:82 | every numeral without a leading zero is `str` of the number it denotes |
| `Banking.ShowIsAccountNumber` | main.py:82 | every draw in 10000000..99999999 is written as 8 digits with no leading zero |
| `Banking.AccountNumberForm` | main.py:79-84 | a string is 8 digits with no leading zero if and only if it is `str` of some number in 10000000..99999999 |
| `Accounts.Encode` | main.py:45-51 | the account record has exactly the fields `account_number`, `name` and `balance`, each of the kind `from_dict` reads |
| `Accounts.DecodeEncode` | main.py:45-60 | `from_dict(to_dict(a))` has the same account number, name and balance as `a` |
| `Accounts.EncodeDecode` | main.py:45-60 | a record with exactly the three fields is `to_dict` of the account `from_dict` builds from it |
| `Accounts.DecodeIgnoresExtra` | main.py:53-60 | a field other than the three `from_dict` reads does not change the account it builds |
| `Accounts.Account.constructor` | main.py:15-18 | a new account has the given number and name, and the given balance, which defaults to zero |
| `Accounts.Account.FromDict` | main.py:53-60 | the account built from a record carries the record's three fields |
| `Accounts.Account.Deposit` | main.py:20-27 | succeeds exactly when the amount is positive; then the balance grows by exactly the amount; otherwise nothing changes; a non-negative balance stays non-negative |
| `Accounts.Account.Withdraw` | main.py:29-39 | succeeds exactly when 0 < amount <= balance; then the balance shrinks by exactly the amount; otherwise nothing changes; a non-negative balance stays non-negative |
| `Accounts.Account.GetBalance` | main.py:41-43 | returns the current balance and changes nothing |
| `Accounts.Account.ToDict` | main.py:45-51 | the record built has exactly the three fields and decodes back to this account's current fields |
| `Storage.Loaded` | main.py:92-94 | inserting the records one by one into the dictionary never removes an account already there |
| `Storage.LoadedKeys` | main.py:92-94 | after loading, the keys are the old keys plus the account numbers of the records |
| `Storage.LoadedKeysMatch` | main.py:92-94 | loading keeps every key equal to its account's number |
| `Storage.LoadedSolvent` | main.py:92-94 | loading records with non-negative balances keeps every balance non-negative |
| `Storage.LoadedLastWins` | main.py:92-94 | when several records share an account number, the last of them is the one kept |
| `Storage.LoadedUntouched` | main.py:92-94 | an account number that no record carries keeps its old entry, or stays absent |
| `Storage.LoadedAgrees` | main.py:92-94 | records that match a map on their own numbers load to that map's entries |
| `Storage.SaveLoadRoundTrip` | main.py:92-103 | loading the list `save_data` builds into an empty bank gives back exactly the accounts that were saved |
| `Storage.LoadSerializes` | main.py:92-94 | records holding exactly `to_dict`'s three fields, with no number twice, are the listing of the accounts they load to |
| `Storage.PersistsSerializes` | main.py:101-105 | a written list of three-field records, one per account, that loads back to the accounts is a listing: each account once, as exactly its `to_dict` record |
| `Storage.SerializesKeysMatch` | main.py:103 | only a map whose keys equal their accounts' numbers can be written as such a list |
| `Storage.SerializesLength` | main.py:103 | the list built holds exactly one record per account |
| `Storage.SerializesPersists` | main.py:101-105 | every such list has one record per account and loads back to the accounts |
| `Banking.Bank.constructor` | main.py:74-77 | a bank starts empty when the store is absent or unreadable; otherwise it holds the loaded records; it has not saved yet |
| `Banking.Bank.LoadData` | main.py:92-94 | the bank's accounts become the old accounts with the records inserted in order; the invariant holds; nothing is saved |
| `Banking.Bank.Insert` | main.py:94 | stores an account under its own number, replaces whatever was there, and keeps the invariant |
| `Banking.Bank.GenerateAccountNumber` | main.py:79-84 | returns the first draw whose string is not yet a key; it is 8 digits with no leading zero, and it is not a key |
| `Banking.Bank.SerializeAccounts` | main.py:103 | the list holds one record per account, each exactly `to_dict` of the account stored under its number, with no number twice |
| `Banking.Bank.SaveData` | main.py:101-106 | exactly one write happens; it holds one record per account, each with exactly `to_dict`'s three fields, and loads back to the current accounts |
| `Banking.Bank.CreateAccount` | main.py:108-115 | adds exactly one new key, the first free draw, with a fresh account holding that number, the given name and balance 0; all other entries are unchanged; non-negativity is kept; exactly one save follows |
| `Banking.Bank.FindAccount` | main.py:117-119 | finds an account exactly when the number is a key, and the account found carries that number |
| `Banking.Bank.Deposit` | main.py:121-129 | an unknown number or a non-positive amount changes nothing and saves nothing; otherwise only that account's balance grows by the amount, and exactly one save follows |
| `Banking.Bank.Withdraw` | main.py:131-139 | an unknown number, a non-positive amount or one above the balance changes nothing and saves nothing; otherwise only that account's balance shrinks by the amount, and exactly one save follows |
| `Banking.Bank.CheckBalance` | main.py:141-149 | shows an account exactly when the number is a key: its number, name and current balance, and it changes nothing |

## Left out

- File handling is not modelled: `os.path.exists`, `open`, `json.load` and
  `json.dump`. The bank's constructor takes the result of reading the store
  as `Option<seq<Record>>`. `None` covers both an absent file and one that
  cannot be parsed (a `JSONDecodeError`); in both cases the source starts
  with no accounts. Saving appends the written list to the ghost field
  `writes`. The file name is not modelled.
- Console output is not modelled: every `print`, the `:.2f` formatting, the
  `main()` menu loop, `input`, `float(...)` parsing and `time.sleep`.
  `CheckBalance` returns the fields it would print. `CreateAccount` returns
  the new number, which the source prints and does not return.
- Floating point is not modelled. Amounts and balances are exact `real`
  numbers. So the model does not show rounding, infinities or NaN. For
  example, the source's withdrawal guards both let a NaN amount through, and
  the balance then becomes NaN.
- Banking.Bank.GenerateAccountNumber: does not model the randomness or the
  termination of the `while True` retry. The successive results of
  `random.randint` are a parameter `draws`. Its precondition says that some
  draw is not yet a key; this stands in for the retry loop ending.
- Banking.Bank.CreateAccount: takes the same `draws` parameter, with the same
  precondition, because it calls the generator.
- Banking.Bank.SerializeAccounts: does not model list order. The source
  writes accounts in dictionary insertion order. The model lists them in an
  unspecified order, so it proves what the list contains but not its order.
- Accounts.Account.FromDict: a record with a missing field is excluded by a
  precondition rather than raising a `KeyError`. A field of the wrong kind is
  excluded by the same precondition. The source raises nothing for it: it
  builds an account holding the mistyped value, which fails later or never.
  For example, an integer `account_number` is a key that no string lookup
  matches.
- `JsonValue` holds only strings and numbers. So a record cannot carry an
  extra field that is null, a boolean, an array or an object, although
  `from_dict` accepts such fields and ignores them.
- The source does not catch a `KeyError` or `TypeError` raised part-way
  through loading. That case is not modelled, because the model's records
  are well-formed.
