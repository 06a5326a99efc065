/**
 * Reads from the ledger, with the ledger fixed as one snapshot of its
 * accounts, and the all-or-nothing collection of fetched bin arrays.
 */
module Ledger {
  import opened Primitives

  datatype Account = Account(data: Bytes)

  /** The accounts visible to this swap-building call, by address. */
  datatype Snapshot = Snapshot(accounts: map<Pubkey, Account>)

  /** One bin array: its index, layout version, owning pool and its bins (whose layout is not read here). */
  datatype BinArray = BinArray(index: I64, version: U8, lbPair: Pubkey, bins: seq<Bytes>)

  /** The clock system account. */
  datatype Clock = Clock(
    slot: U64,
    epochStartTimestamp: I64,
    epoch: U64,
    leaderScheduleEpoch: U64,
    unixTimestamp: I64)

  /** `get_account_data`: the bytes of an existing account, else an error. */
  function GetAccountData(ledger: Snapshot, key: Pubkey): (r: Result<Bytes>)
    ensures r.Ok? <==> key in ledger.accounts
    ensures r.Ok? ==> r.value == ledger.accounts[key].data
    ensures r.Err? ==> r.error == AccountNotFound(key)
  {
    if key in ledger.accounts then Ok(ledger.accounts[key].data) else Err(AccountNotFound(key))
  }

  /** `get_multiple_accounts`: one optional account per requested key, in order. */
  function GetMultipleAccounts(ledger: Snapshot, keys: seq<Pubkey>): (r: seq<Option<Account>>)
    ensures |r| == |keys|
    ensures forall i :: 0 <= i < |keys| ==>
      (r[i].Some? <==> keys[i] in ledger.accounts) &&
      (r[i].Some? ==> r[i].value == ledger.accounts[keys[i]])
  {
    seq(|keys|, i requires 0 <= i < |keys| =>
      if keys[i] in ledger.accounts then Some(ledger.accounts[keys[i]]) else None)
  }

  /** `program.account::<T>(key)`: fetch, then the discriminator-checked deserialisation of T. */
  function LoadAccount<T>(ledger: Snapshot, key: Pubkey, deserialize: Bytes -> Option<T>): (r: Result<T>)
    ensures r.Ok? <==> key in ledger.accounts && deserialize(ledger.accounts[key].data).Some?
    ensures r.Ok? ==> r.value == deserialize(ledger.accounts[key].data).value
    ensures key !in ledger.accounts ==> r == Err(AccountNotFound(key))
  {
    var data :- GetAccountData(ledger, key);
    deserialize(data).ToResult(AccountDecodeFailed(key))
  }

  /** One step of the collecting closure: `account?` then `try_deserialize(..).ok()?`. */
  function BinArrayEntry(account: Option<Account>, deserialize: Bytes -> Option<BinArray>): Option<BinArray> {
    match account
    case None => None
    case Some(a) => deserialize(a.data)
  }

  function Min(a: nat, b: nat): nat {
    if a <= b then a else b
  }

  /**
   * `accounts.zip(keys).map(..).collect::<Option<HashMap<_, _>>>()`: the zip
   * stops at the shorter list, any failed entry makes the whole result absent,
   * and a key inserted later overrides an earlier one.
   */
  function CollectBinArrays(accounts: seq<Option<Account>>, keys: seq<Pubkey>, deserialize: Bytes -> Option<BinArray>)
    : (r: Option<map<Pubkey, BinArray>>)
    ensures r.Some? <==> forall i :: 0 <= i < Min(|accounts|, |keys|) ==> BinArrayEntry(accounts[i], deserialize).Some?
    decreases |keys|
  {
    if accounts == [] || keys == [] then Some(map[])
    else
      match BinArrayEntry(accounts[0], deserialize)
      case None => None
      case Some(b) =>
        match CollectBinArrays(accounts[1..], keys[1..], deserialize)
        case None => None
        case Some(rest) => Some(map[keys[0] := b] + rest)
  }

  /** A successful collection has exactly the zipped keys. */
  lemma {:induction false} CollectedKeys(accounts: seq<Option<Account>>, keys: seq<Pubkey>, deserialize: Bytes -> Option<BinArray>)
    requires CollectBinArrays(accounts, keys, deserialize).Some?
    ensures CollectBinArrays(accounts, keys, deserialize).value.Keys == set i | 0 <= i < Min(|accounts|, |keys|) :: keys[i]
    decreases |keys|
  {
    if accounts != [] && keys != [] {
      CollectedKeys(accounts[1..], keys[1..], deserialize);
      var n := Min(|accounts|, |keys|);
      var tail := set i | 0 <= i < Min(|accounts| - 1, |keys| - 1) :: keys[1..][i];
      assert (set i | 0 <= i < n :: keys[i]) == {keys[0]} + tail by {
        forall k | k in tail ensures k in set i | 0 <= i < n :: keys[i] {
          var i :| 0 <= i < Min(|accounts| - 1, |keys| - 1) && k == keys[1..][i];
          assert k == keys[i + 1];
        }
        forall k | k in set i | 0 <= i < n :: keys[i] ensures k in {keys[0]} + tail {
          var i :| 0 <= i < n && k == keys[i];
          if i > 0 { assert k == keys[1..][i - 1]; }
        }
      }
    }
  }

  /** A key that does not recur later in the zipped prefix maps to the bin array decoded from its own account. */
  lemma {:induction false} CollectedValue(accounts: seq<Option<Account>>, keys: seq<Pubkey>, deserialize: Bytes -> Option<BinArray>, i: nat)
    requires CollectBinArrays(accounts, keys, deserialize).Some?
    requires i < Min(|accounts|, |keys|)
    requires keys[i] !in keys[i + 1..Min(|accounts|, |keys|)]
    ensures keys[i] in CollectBinArrays(accounts, keys, deserialize).value
    ensures CollectBinArrays(accounts, keys, deserialize).value[keys[i]] == BinArrayEntry(accounts[i], deserialize).value
    decreases i
  {
    CollectedKeys(accounts[1..], keys[1..], deserialize);
    var n := Min(|accounts|, |keys|);
    var rest := CollectBinArrays(accounts[1..], keys[1..], deserialize).value;
    if i == 0 {
      forall k | k in rest.Keys ensures k in keys[1..n] {
        var j :| 0 <= j < n - 1 && k == keys[1..][j];
        assert k == keys[1..n][j];
      }
    } else {
      assert keys[1..][i - 1 + 1..Min(|accounts| - 1, |keys| - 1)] == keys[i + 1..n];
      CollectedValue(accounts[1..], keys[1..], deserialize, i - 1);
    }
  }

  /**
   * When every fetched account is the snapshot's account at its key (as
   * `get_multiple_accounts` gives), each collected key maps to the bin array
   * decoded from that key's own account, duplicates included.
   */
  lemma {:induction false} CollectFromSnapshot(ledger: Snapshot, keys: seq<Pubkey>, deserialize: Bytes -> Option<BinArray>)
    requires CollectBinArrays(GetMultipleAccounts(ledger, keys), keys, deserialize).Some?
    ensures forall i :: 0 <= i < |keys| ==>
      && keys[i] in ledger.accounts
      && keys[i] in CollectBinArrays(GetMultipleAccounts(ledger, keys), keys, deserialize).value
      && CollectBinArrays(GetMultipleAccounts(ledger, keys), keys, deserialize).value[keys[i]]
           == deserialize(ledger.accounts[keys[i]].data).value
    decreases |keys|
  {
    var accounts := GetMultipleAccounts(ledger, keys);
    if keys != [] {
      assert accounts[1..] == GetMultipleAccounts(ledger, keys[1..]);
      CollectFromSnapshot(ledger, keys[1..], deserialize);
      CollectedKeys(accounts[1..], keys[1..], deserialize);
      var rest := CollectBinArrays(accounts[1..], keys[1..], deserialize).value;
      var m := CollectBinArrays(accounts, keys, deserialize).value;
      forall i | 0 <= i < |keys|
        ensures keys[i] in ledger.accounts && keys[i] in m
        ensures m[keys[i]] == deserialize(ledger.accounts[keys[i]].data).value
      {
        assert BinArrayEntry(accounts[i], deserialize).Some?;
        if i > 0 {
          assert keys[i] == keys[1..][i - 1];
        } else if keys[0] in rest {
          var j :| 0 <= j < |keys| - 1 && keys[0] == keys[1..][j];
        }
      }
    }
  }

  /** Fetch the requested bin arrays and collect them, or fail with "Failed to fetch bin arrays". */
  function FetchBinArrays(ledger: Snapshot, keys: seq<Pubkey>, deserialize: Bytes -> Option<BinArray>)
    : (r: Result<map<Pubkey, BinArray>>)
    ensures r.Ok? <==> forall i :: 0 <= i < |keys| ==>
      keys[i] in ledger.accounts && deserialize(ledger.accounts[keys[i]].data).Some?
    ensures r.Err? ==> r.error == BinArraysFetchFailed
    ensures r.Ok? ==> r.value.Keys == set i | 0 <= i < |keys| :: keys[i]
    ensures r.Ok? ==> forall i :: 0 <= i < |keys| ==>
      r.value[keys[i]] == deserialize(ledger.accounts[keys[i]].data).value
  {
    var accounts := GetMultipleAccounts(ledger, keys);
    var collected := CollectBinArrays(accounts, keys, deserialize);
    if collected.Some? then
      CollectFromSnapshot(ledger, keys, deserialize);
      CollectedKeys(accounts, keys, deserialize);
      Ok(collected.value)
    else
      assert exists i :: 0 <= i < |keys| && BinArrayEntry(accounts[i], deserialize).None?;
      Err(BinArraysFetchFailed)
  }

  /** `get_account(Clock::id())` decoded with bincode; both a missing account and a bad encoding are errors. */
  function ReadClock(ledger: Snapshot, clockId: Pubkey, decode: Bytes -> Option<Clock>): (r: Result<Clock>)
    ensures r.Ok? <==> clockId in ledger.accounts && decode(ledger.accounts[clockId].data).Some?
    ensures r.Ok? ==> r.value == decode(ledger.accounts[clockId].data).value
    ensures clockId !in ledger.accounts ==> r == Err(AccountNotFound(clockId))
    ensures clockId in ledger.accounts && decode(ledger.accounts[clockId].data).None? ==> r == Err(ClockDecodeFailed)
  {
    var data :- GetAccountData(ledger, clockId);
    decode(data).ToResult(ClockDecodeFailed)
  }
}
