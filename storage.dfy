/**
 * The two transformations between the bank's account map and the list of
 * records it persists: inserting a list of records into the map, keyed by
 * each record's account number (the loop of `load_data`), and what a list
 * written by `save_data` must be for that map.
 */
module Storage {
  import opened Accounts

  /** The bank's accounts as values: account number to fields. */
  type AccountMap = map<string, AccountData>

  /** Every key is the account number of the account stored under it. */
  ghost predicate KeysMatch(m: AccountMap) {
    forall k :: k in m ==> m[k].accountNumber == k
  }

  /** No account has a negative balance. */
  ghost predicate Solvent(m: AccountMap) {
    forall k :: k in m ==> m[k].balance >= 0.0
  }

  predicate AllWellFormed(data: seq<Record>) {
    forall i :: 0 <= i < |data| ==> WellFormed(data[i])
  }

  /** The account numbers the records carry. */
  function Numbers(data: seq<Record>): set<string>
    requires AllWellFormed(data)
  {
    set i | 0 <= i < |data| :: NumberOf(data[i])
  }

  /**
   * `m` after inserting the records of `data` in order, each under its own
   * account number, so that a later record replaces an earlier one. No
   * account already in `m` is removed.
   */
  function Loaded(m: AccountMap, data: seq<Record>): (r: AccountMap)
    requires AllWellFormed(data)
    ensures m.Keys <= r.Keys
    decreases |data|
  {
    if data == [] then m
    else
      var a := Decode(data[|data| - 1]);
      Loaded(m, data[..|data| - 1])[a.accountNumber := a]
  }

  /** The numbers of a list are those of all but its last record, plus the last one's. */
  lemma NumbersSnoc(data: seq<Record>)
    requires AllWellFormed(data) && data != []
    ensures Numbers(data) == Numbers(data[..|data| - 1]) + {NumberOf(data[|data| - 1])}
  {
  }

  /** Loading adds exactly the records' account numbers to the keys. */
  lemma {:induction false} LoadedKeys(m: AccountMap, data: seq<Record>)
    requires AllWellFormed(data)
    ensures Loaded(m, data).Keys == m.Keys + Numbers(data)
    decreases |data|
  {
    if data != [] {
      LoadedKeys(m, data[..|data| - 1]);
      NumbersSnoc(data);
    }
  }

  /** Loading keeps every key equal to its account's number. */
  lemma {:induction false} LoadedKeysMatch(m: AccountMap, data: seq<Record>)
    requires AllWellFormed(data) && KeysMatch(m)
    ensures KeysMatch(Loaded(m, data))
    decreases |data|
  {
    if data != [] {
      LoadedKeysMatch(m, data[..|data| - 1]);
    }
  }

  /** Loading records with non-negative balances keeps every balance non-negative. */
  lemma {:induction false} LoadedSolvent(m: AccountMap, data: seq<Record>)
    requires AllWellFormed(data) && Solvent(m)
    requires forall i :: 0 <= i < |data| ==> Decode(data[i]).balance >= 0.0
    ensures Solvent(Loaded(m, data))
    decreases |data|
  {
    if data != [] {
      LoadedSolvent(m, data[..|data| - 1]);
    }
  }

  /** The last record carrying an account number is the one the map keeps. */
  lemma {:induction false} LoadedLastWins(m: AccountMap, data: seq<Record>, j: nat)
    requires AllWellFormed(data) && j < |data|
    requires forall i :: j < i < |data| ==> NumberOf(data[i]) != NumberOf(data[j])
    ensures NumberOf(data[j]) in Loaded(m, data)
    ensures Loaded(m, data)[NumberOf(data[j])] == Decode(data[j])
    decreases |data|
  {
    if j < |data| - 1 {
      var p := data[..|data| - 1];
      assert p[j] == data[j];
      LoadedLastWins(m, p, j);
    }
  }

  /** An account number no record carries keeps its entry, or its absence. */
  lemma {:induction false} LoadedUntouched(m: AccountMap, data: seq<Record>, k: string)
    requires AllWellFormed(data) && k !in Numbers(data)
    ensures k in Loaded(m, data) <==> k in m
    ensures k in m ==> Loaded(m, data)[k] == m[k]
    decreases |data|
  {
    if data != [] {
      NumbersSnoc(data);
      LoadedUntouched(m, data[..|data| - 1], k);
    }
  }

  /** The record `r` is the encoding of the account `v` holds under its number. */
  ghost predicate Agrees(r: Record, v: AccountMap)
    requires WellFormed(r)
  {
    NumberOf(r) in v && r == Encode(v[NumberOf(r)])
  }

  /**
   * `data` is a listing of `v`: one record per account, each agreeing with
   * the account stored under its number, with no account number twice.
   */
  ghost predicate Serializes(data: seq<Record>, v: AccountMap) {
    && AllWellFormed(data)
    && (forall i :: 0 <= i < |data| ==> Agrees(data[i], v))
    && Numbers(data) == v.Keys
    && (forall i, j :: 0 <= i < j < |data| ==> NumberOf(data[i]) != NumberOf(data[j]))
  }

  /** Records that all agree with `v` load to what `v` holds under their numbers. */
  lemma {:induction false} LoadedAgrees(m: AccountMap, data: seq<Record>, v: AccountMap)
    requires AllWellFormed(data)
    requires forall i :: 0 <= i < |data| ==> Agrees(data[i], v)
    ensures forall k :: k in Numbers(data) ==> k in v && k in Loaded(m, data) && Loaded(m, data)[k] == v[k]
    decreases |data|
  {
    if data != [] {
      var p := data[..|data| - 1];
      LoadedAgrees(m, p, v);
      NumbersSnoc(data);
    }
  }

  /** Loading a listing of `v` into an empty map gives `v` back. */
  lemma SaveLoadRoundTrip(data: seq<Record>, v: AccountMap)
    requires Serializes(data, v)
    ensures Loaded(map[], data) == v
  {
    LoadedKeys(map[], data);
    LoadedAgrees(map[], data, v);
  }

  /**
   * Conversely, well-formed records with pairwise distinct numbers that each
   * hold exactly the three fields are a listing of the map they load to.
   */
  lemma LoadSerializes(data: seq<Record>)
    requires AllWellFormed(data)
    requires forall i :: 0 <= i < |data| ==> data[i].Keys == {AccountNumberKey, NameKey, BalanceKey}
    requires forall i, j :: 0 <= i < j < |data| ==> NumberOf(data[i]) != NumberOf(data[j])
    ensures Serializes(data, Loaded(map[], data))
  {
    var v := Loaded(map[], data);
    LoadedKeys(map[], data);
    forall j | 0 <= j < |data|
      ensures Agrees(data[j], v)
    {
      LoadedLastAgrees(data, j);
    }
  }

  /** A three-field record no later record overrides is the encoding of what it loads to. */
  lemma LoadedLastAgrees(data: seq<Record>, j: nat)
    requires AllWellFormed(data) && j < |data|
    requires data[j].Keys == {AccountNumberKey, NameKey, BalanceKey}
    requires forall i :: j < i < |data| ==> NumberOf(data[i]) != NumberOf(data[j])
    ensures Agrees(data[j], Loaded(map[], data))
  {
    LoadedLastWins(map[], data, j);
    EncodeDecode(data[j]);
  }

  /** Only a map whose keys match its accounts' numbers can be listed. */
  lemma SerializesKeysMatch(data: seq<Record>, v: AccountMap)
    requires Serializes(data, v)
    ensures KeysMatch(v)
  {
  }

  /** Records with pairwise distinct numbers carry as many numbers as there are records. */
  lemma {:induction false} DistinctNumbersCount(data: seq<Record>)
    requires AllWellFormed(data)
    requires forall i, j :: 0 <= i < j < |data| ==> NumberOf(data[i]) != NumberOf(data[j])
    ensures |Numbers(data)| == |data|
    decreases |data|
  {
    if data != [] {
      var p := data[..|data| - 1];
      NumbersSnoc(data);
      DistinctNumbersCount(p);
      assert NumberOf(data[|data| - 1]) !in Numbers(p);
    }
  }

  /** A listing of `v` holds exactly one record per account. */
  lemma SerializesLength(data: seq<Record>, v: AccountMap)
    requires Serializes(data, v)
    ensures |data| == |v|
  {
    DistinctNumbersCount(data);
    assert |v| == |v.Keys|;
  }

  /**
   * `data`, once written, holds one record per account of `v`, each with
   * exactly the three fields, and loads back to exactly `v`.
   */
  ghost predicate Persists(data: seq<Record>, v: AccountMap) {
    && AllWellFormed(data)
    && (forall i :: 0 <= i < |data| ==> data[i].Keys == {AccountNumberKey, NameKey, BalanceKey})
    && |data| == |v|
    && Loaded(map[], data) == v
  }

  /** Every listing of `v` persists `v`. */
  lemma SerializesPersists(data: seq<Record>, v: AccountMap)
    requires Serializes(data, v)
    ensures Persists(data, v)
  {
    SerializesLength(data, v);
    SaveLoadRoundTrip(data, v);
  }

  /** A list never carries more account numbers than it has records. */
  lemma {:induction false} NumbersBound(data: seq<Record>)
    requires AllWellFormed(data)
    ensures |Numbers(data)| <= |data|
    decreases |data|
  {
    if data != [] {
      NumbersSnoc(data);
      NumbersBound(data[..|data| - 1]);
    }
  }

  /** Two records sharing a number leave fewer numbers than records. */
  lemma {:induction false} DuplicateShrinks(data: seq<Record>, i: nat, j: nat)
    requires AllWellFormed(data) && i < j < |data| && NumberOf(data[i]) == NumberOf(data[j])
    ensures |Numbers(data)| < |data|
    decreases |data|
  {
    var p := data[..|data| - 1];
    NumbersSnoc(data);
    assert p[i] == data[i];
    if j == |data| - 1 {
      assert NumberOf(p[i]) in Numbers(p);
      NumbersBound(p);
    } else {
      assert p[j] == data[j];
      DuplicateShrinks(p, i, j);
    }
  }

  /**
   * What `Persists` promises is a listing: a list of three-field records
   * of the map's size that loads back to the map lists each account once,
   * as exactly its encoding.
   */
  lemma PersistsSerializes(data: seq<Record>, v: AccountMap)
    requires Persists(data, v)
    ensures Serializes(data, v)
  {
    LoadedKeys(map[], data);
    assert |Numbers(data)| == |data| by {
      assert |v| == |v.Keys|;
    }
    forall i, j | 0 <= i < j < |data|
      ensures NumberOf(data[i]) != NumberOf(data[j])
    {
      if NumberOf(data[i]) == NumberOf(data[j]) {
        DuplicateShrinks(data, i, j);
      }
    }
    LoadSerializes(data);
  }

  /**
   * `data` lists the accounts of `v` whose numbers are in `done`, one
   * record each.
   */
  ghost predicate ListsSome(data: seq<Record>, v: AccountMap, done: set<string>) {
    && AllWellFormed(data)
    && (forall i :: 0 <= i < |data| ==> Agrees(data[i], v))
    && Numbers(data) == done
    && (forall i, j :: 0 <= i < j < |data| ==> NumberOf(data[i]) != NumberOf(data[j]))
  }

  /** Appending the record of one more account extends a partial listing. */
  lemma ListsSomeStep(data: seq<Record>, v: AccountMap, done: set<string>, r: Record)
    requires ListsSome(data, v, done)
    requires WellFormed(r) && NumberOf(r) !in done && Agrees(r, v)
    ensures ListsSome(data + [r], v, done + {NumberOf(r)})
  {
    var d := data + [r];
    assert d[..|data|] == data;
    NumbersSnoc(d);
  }

  /** A listing of every key is a listing of the map. */
  lemma ListsSomeAll(data: seq<Record>, v: AccountMap)
    requires ListsSome(data, v, v.Keys)
    ensures Serializes(data, v)
  {
  }
}
