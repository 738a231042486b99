/**
 * The values a ledger stores and the pure, history-replaying definitions its
 * queries are specified by (blockchain.py).  Everything here is a function of
 * a snapshot of the chain: a sequence of BlockData values.
 */
module Chain {

  import opened Wrappers

  /** A JSON value, as transaction details hold them. */
  datatype Value = Null | Int(n: int) | Str(s: string) | List(items: seq<Value>) | Object(fields: map<string, Value>)

  /** A transaction's `details` dict; the ledger reads only its "amount". */
  type Details = map<string, Value>

  datatype TxKind = Register | Transfer | MiningReward

  /** A transaction in the dict form the chain stores (`Transaction.to_dict`). */
  datatype Tx = Tx(fromAddress: Option<string>, toAddress: string, landId: Option<string>,
                   kind: TxKind, details: Details, timestamp: string)

  /** `dict.get(key)`: a missing key reads as None. */
  function Lookup(d: Details, key: string): Value
  {
    if key in d then d[key] else Null
  }

  /** `transaction_type in ['register', 'transfer']` */
  predicate IsOwnership(kind: TxKind)
  {
    kind == Register || kind == Transfer
  }

  /** A register or transfer event for land `id`. */
  predicate IsOwnershipOf(t: Tx, id: string)
  {
    t.landId == Some(id) && IsOwnership(t.kind)
  }

  /** The reward transaction `mine_pending_transactions` adds to every block. */
  function RewardTx(address: string, reward: int, timestamp: string): Tx
  {
    Tx(None, address, None, MiningReward, map["amount" := Int(reward)], timestamp)
  }

  // ---------------------------------------------------------------------------
  // Hashing and proof of work

  /** The five fields `calculate_hash` serialises. */
  datatype HashInput = HashInput(index: nat, transactions: seq<Tx>, timestamp: real, previousHash: string, nonce: nat)

  /** The canonical serialisation followed by SHA-256, supplied by the caller. */
  type Hasher = HashInput -> string

  /** A block as a value: its five hashed fields and its stored hash. */
  datatype BlockData = BlockData(index: nat, transactions: seq<Tx>, timestamp: real,
                                 previousHash: string, nonce: nat, hash: string)

  function Header(b: BlockData): HashInput
  {
    HashInput(b.index, b.transactions, b.timestamp, b.previousHash, b.nonce)
  }

  /** `"0" * n` */
  function Zeros(n: nat): string
  {
    seq(n, _ => '0')
  }

  /** `h[:d]` */
  function Prefix(h: string, d: nat): string
  {
    if d <= |h| then h[..d] else h
  }

  /** The hash starts with `difficulty` zero characters. */
  predicate MeetsTarget(h: string, difficulty: nat)
  {
    difficulty <= |h| && forall i :: 0 <= i < difficulty ==> h[i] == '0'
  }

  /** The loop test of `mine_block` is exactly the target. */
  lemma PrefixTest(h: string, d: nat)
    ensures (Prefix(h, d) == Zeros(d)) <==> MeetsTarget(h, d)
  {
    if MeetsTarget(h, d) {
      assert Prefix(h, d) == Zeros(d);
    } else if d <= |h| {
      var i :| 0 <= i < d && h[i] != '0';
      assert Prefix(h, d)[i] != Zeros(d)[i];
    }
  }

  /** Some nonce makes a block with these four fields meet the target. */
  ghost predicate Solvable(hasher: Hasher, difficulty: nat, index: nat, txs: seq<Tx>, timestamp: real, previousHash: string)
  {
    exists n: nat :: MeetsTarget(hasher(HashInput(index, txs, timestamp, previousHash, n)), difficulty)
  }

  /** Every block can be mined: the proof-of-work search always ends. */
  ghost predicate Mineable(hasher: Hasher, difficulty: nat)
  {
    forall index: nat, txs: seq<Tx>, timestamp: real, previousHash: string ::
      Solvable(hasher, difficulty, index, txs, timestamp, previousHash)
  }

  // ---------------------------------------------------------------------------
  // Chain validity (is_chain_valid)

  /** Block `i` holds its own hash and links back to block `i - 1`. */
  predicate LinkedAt(v: seq<BlockData>, hasher: Hasher, i: nat)
    requires 1 <= i < |v|
  {
    v[i].hash == hasher(Header(v[i])) && v[i].previousHash == v[i - 1].hash
  }

  /** What `is_chain_valid` checks: every block after genesis; genesis is never checked. */
  predicate ChainValid(v: seq<BlockData>, hasher: Hasher)
  {
    forall i :: 1 <= i < |v| ==> LinkedAt(v, hasher, i)
  }

  /** Appending a block that holds its own hash and links to the tip keeps a chain valid, and only such a block does. */
  lemma ChainValidAppend(v: seq<BlockData>, hasher: Hasher, b: BlockData)
    requires |v| >= 1
    ensures ChainValid(v + [b], hasher) <==>
            ChainValid(v, hasher) && b.hash == hasher(Header(b)) && b.previousHash == v[|v| - 1].hash
  {
    var w := v + [b];
    if ChainValid(w, hasher) {
      forall i | 1 <= i < |v| ensures LinkedAt(v, hasher, i) {
        assert LinkedAt(w, hasher, i);
      }
      assert LinkedAt(w, hasher, |v|);
    }
    if ChainValid(v, hasher) && b.hash == hasher(Header(b)) && b.previousHash == v[|v| - 1].hash {
      forall i | 1 <= i < |w| ensures LinkedAt(w, hasher, i) {
        if i < |v| {
          assert LinkedAt(v, hasher, i);
        }
      }
    }
  }

  /**
   * Changing the hashed fields of a block after genesis while keeping its
   * stored hash is detected, unless the new fields collide with the old ones
   * under the hash.
   */
  lemma TamperedBlockDetected(v: seq<BlockData>, hasher: Hasher, k: nat, forged: BlockData)
    requires ChainValid(v, hasher)
    requires 1 <= k < |v| && forged.hash == v[k].hash && hasher(Header(forged)) != hasher(Header(v[k]))
    ensures !ChainValid(v[k := forged], hasher)
  {
    assert LinkedAt(v, hasher, k);
    assert !LinkedAt(v[k := forged], hasher, k);
  }

  /**
   * Re-hashing a tampered block does not help unless it is the tip: barring a
   * collision between the new and the old fields, its successor's back-link
   * breaks.
   */
  lemma RehashedBlockDetected(v: seq<BlockData>, hasher: Hasher, k: nat, forged: BlockData)
    requires ChainValid(v, hasher)
    requires 1 <= k < |v| - 1 && forged.hash == hasher(Header(forged)) && hasher(Header(forged)) != hasher(Header(v[k]))
    ensures !ChainValid(v[k := forged], hasher)
  {
    assert LinkedAt(v, hasher, k);
    assert LinkedAt(v, hasher, k + 1);
    assert !LinkedAt(v[k := forged], hasher, k + 1);
  }

  /** Genesis is outside the check: any block with the same stored hash may replace it unnoticed. */
  lemma GenesisUnchecked(v: seq<BlockData>, hasher: Hasher, forged: BlockData)
    requires ChainValid(v, hasher) && |v| >= 1 && forged.hash == v[0].hash
    ensures ChainValid(v[0 := forged], hasher)
  {
    var w := v[0 := forged];
    forall i | 1 <= i < |w| ensures LinkedAt(w, hasher, i) {
      assert LinkedAt(v, hasher, i);
    }
  }

  // ---------------------------------------------------------------------------
  // The flattened history

  /** Every transaction of every block, in block order then in-block order. */
  function AllTxs(v: seq<BlockData>): seq<Tx>
  {
    if v == [] then [] else AllTxs(v[..|v| - 1]) + v[|v| - 1].transactions
  }

  lemma AllTxsStep(v: seq<BlockData>, i: nat)
    requires i < |v|
    ensures AllTxs(v[..i + 1]) == AllTxs(v[..i]) + v[i].transactions
  {
    assert v[..i + 1][..i] == v[..i];
  }

  /** `get_current_owner`: the `to_address` of the last register/transfer of `id`. */
  function CurrentOwner(txs: seq<Tx>, id: string): Option<string>
  {
    if txs == [] then None
    else if IsOwnershipOf(txs[|txs| - 1], id) then Some(txs[|txs| - 1].toAddress)
    else CurrentOwner(txs[..|txs| - 1], id)
  }

  /** The owner is None exactly when no event for `id` exists, and otherwise the target of the last one. */
  lemma {:induction false} CurrentOwnerIsLastEvent(txs: seq<Tx>, id: string)
    ensures CurrentOwner(txs, id) == None <==> forall k :: 0 <= k < |txs| ==> !IsOwnershipOf(txs[k], id)
    ensures CurrentOwner(txs, id).Some? ==>
              exists k :: 0 <= k < |txs| && IsOwnershipOf(txs[k], id) &&
                          CurrentOwner(txs, id) == Some(txs[k].toAddress) &&
                          forall j :: k < j < |txs| ==> !IsOwnershipOf(txs[j], id)
  {
    if txs != [] {
      var n := |txs| - 1;
      var front := txs[..n];
      CurrentOwnerIsLastEvent(front, id);
      if !IsOwnershipOf(txs[n], id) {
        if CurrentOwner(front, id).Some? {
          var k :| 0 <= k < n && IsOwnershipOf(front[k], id) &&
                   CurrentOwner(front, id) == Some(front[k].toAddress) &&
                   forall j :: k < j < n ==> !IsOwnershipOf(front[j], id);
          assert txs[k] == front[k];
        } else {
          assert forall k :: 0 <= k < n ==> txs[k] == front[k];
        }
      }
    }
  }

  /** Replaying `s + t`: events in `t` win over those in `s`. */
  lemma {:induction false} CurrentOwnerAppend(s: seq<Tx>, t: seq<Tx>, id: string)
    ensures CurrentOwner(s + t, id) == if CurrentOwner(t, id).Some? then CurrentOwner(t, id) else CurrentOwner(s, id)
  {
    if t != [] {
      var n := |t| - 1;
      assert (s + t)[..|s + t| - 1] == s + t[..n];
      CurrentOwnerAppend(s, t[..n], id);
    } else {
      assert s + t == s;
    }
  }

  // ---------------------------------------------------------------------------
  // Records: transactions tagged with their block (get_all_transactions, get_land_history)

  datatype Record = Record(blockIndex: nat, transaction: Tx, blockHash: string)

  /** The transactions `txs` of block `b`, each tagged with `b`'s index and hash. */
  function TagTxs(b: BlockData, txs: seq<Tx>): seq<Record>
  {
    if txs == [] then [] else TagTxs(b, txs[..|txs| - 1]) + [Record(b.index, txs[|txs| - 1], b.hash)]
  }

  /** `get_all_transactions` */
  function Tagged(v: seq<BlockData>): seq<Record>
  {
    if v == [] then [] else Tagged(v[..|v| - 1]) + TagTxs(v[|v| - 1], v[|v| - 1].transactions)
  }

  lemma TaggedStep(v: seq<BlockData>, i: nat)
    requires i < |v|
    ensures Tagged(v[..i + 1]) == Tagged(v[..i]) + TagTxs(v[i], v[i].transactions)
  {
    assert v[..i + 1][..i] == v[..i];
  }

  /** The records whose transaction concerns land `id` (`get_land_history`'s filter: land id only, any kind). */
  function Matching(rs: seq<Record>, id: string): seq<Record>
  {
    if rs == [] then []
    else Matching(rs[..|rs| - 1], id) + (if rs[|rs| - 1].transaction.landId == Some(id) then [rs[|rs| - 1]] else [])
  }

  /** `get_land_history` */
  function LandHistory(v: seq<BlockData>, id: string): seq<Record>
  {
    Matching(Tagged(v), id)
  }

  function Transactions(rs: seq<Record>): seq<Tx>
  {
    if rs == [] then [] else Transactions(rs[..|rs| - 1]) + [rs[|rs| - 1].transaction]
  }

  lemma TransactionsStep(rs: seq<Record>, k: nat)
    requires k < |rs|
    ensures Transactions(rs[..k + 1]) == Transactions(rs[..k]) + [rs[k].transaction]
  {
    assert rs[..k + 1][..k] == rs[..k];
  }

  /** The transactions that concern land `id`, in order. */
  function WithLandId(txs: seq<Tx>, id: string): seq<Tx>
  {
    if txs == [] then []
    else WithLandId(txs[..|txs| - 1], id) + (if txs[|txs| - 1].landId == Some(id) then [txs[|txs| - 1]] else [])
  }

  lemma {:induction false} TransactionsAppend(a: seq<Record>, b: seq<Record>)
    ensures Transactions(a + b) == Transactions(a) + Transactions(b)
  {
    if b != [] {
      assert (a + b)[..|a + b| - 1] == a + b[..|b| - 1];
      TransactionsAppend(a, b[..|b| - 1]);
    } else {
      assert a + b == a;
    }
  }

  lemma {:induction false} TagTxsKeepsTransactions(b: BlockData, txs: seq<Tx>)
    ensures Transactions(TagTxs(b, txs)) == txs
    ensures forall r :: r in TagTxs(b, txs) ==> r.blockIndex == b.index && r.blockHash == b.hash
  {
    if txs != [] {
      var n := |txs| - 1;
      TagTxsKeepsTransactions(b, txs[..n]);
      TransactionsAppend(TagTxs(b, txs[..n]), [Record(b.index, txs[n], b.hash)]);
      assert txs[..n] + [txs[n]] == txs;
    }
  }

  /** `get_all_transactions` returns every transaction in chain order, each tagged with its own block. */
  lemma {:induction false} TaggedIsAllTxs(v: seq<BlockData>)
    ensures Transactions(Tagged(v)) == AllTxs(v)
    ensures |Tagged(v)| == |AllTxs(v)|
    ensures forall r :: r in Tagged(v) ==> exists i :: 0 <= i < |v| && r.blockIndex == v[i].index && r.blockHash == v[i].hash
  {
    if v != [] {
      var n := |v| - 1;
      TaggedIsAllTxs(v[..n]);
      TagTxsKeepsTransactions(v[n], v[n].transactions);
      TransactionsAppend(Tagged(v[..n]), TagTxs(v[n], v[n].transactions));
      forall r | r in Tagged(v)
        ensures exists i :: 0 <= i < |v| && r.blockIndex == v[i].index && r.blockHash == v[i].hash
      {
        if r in Tagged(v[..n]) {
          var i :| 0 <= i < n && r.blockIndex == v[..n][i].index && r.blockHash == v[..n][i].hash;
          assert v[..n][i] == v[i];
        } else {
          assert r.blockIndex == v[n].index && r.blockHash == v[n].hash;
        }
      }
    }
    TransactionsLength(Tagged(v));
  }

  lemma {:induction false} TransactionsLength(rs: seq<Record>)
    ensures |Transactions(rs)| == |rs|
    ensures forall k :: 0 <= k < |rs| ==> Transactions(rs)[k] == rs[k].transaction
  {
    if rs != [] {
      TransactionsLength(rs[..|rs| - 1]);
    }
  }

  lemma {:induction false} MatchingTransactions(rs: seq<Record>, id: string)
    ensures Transactions(Matching(rs, id)) == WithLandId(Transactions(rs), id)
    ensures forall r :: r in Matching(rs, id) ==> r in rs && r.transaction.landId == Some(id)
  {
    if rs != [] {
      var n := |rs| - 1;
      MatchingTransactions(rs[..n], id);
      var tail := if rs[n].transaction.landId == Some(id) then [rs[n]] else [];
      TransactionsAppend(Matching(rs[..n], id), tail);
      assert Transactions(rs)[..|Transactions(rs)| - 1] == Transactions(rs[..n]);
    }
  }

  /** `get_land_history` lists exactly the transactions that name land `id`, in chain order. */
  lemma LandHistoryIsFiltered(v: seq<BlockData>, id: string)
    ensures Transactions(LandHistory(v, id)) == WithLandId(AllTxs(v), id)
    ensures |LandHistory(v, id)| == |WithLandId(AllTxs(v), id)|
  {
    MatchingTransactions(Tagged(v), id);
    TaggedIsAllTxs(v);
    TransactionsLength(LandHistory(v, id));
  }

  /** Filtering by land id first does not change the owner of that land. */
  lemma {:induction false} CurrentOwnerOfFiltered(txs: seq<Tx>, id: string)
    ensures CurrentOwner(WithLandId(txs, id), id) == CurrentOwner(txs, id)
  {
    if txs != [] {
      var n := |txs| - 1;
      CurrentOwnerOfFiltered(txs[..n], id);
      var tail := if txs[n].landId == Some(id) then [txs[n]] else [];
      CurrentOwnerAppend(WithLandId(txs[..n], id), tail, id);
      if tail != [] {
        assert tail[..0] == [];
      }
    }
  }

  /** The last register/transfer record in a history (`get_land_info`'s reverse scan). */
  function LastOwnershipRecord(rs: seq<Record>): Option<Record>
  {
    if rs == [] then None
    else if IsOwnership(rs[|rs| - 1].transaction.kind) then Some(rs[|rs| - 1])
    else LastOwnershipRecord(rs[..|rs| - 1])
  }

  /** In a history of land `id`, the last register/transfer record carries the current owner. */
  lemma {:induction false} LastOwnershipRecordOwner(rs: seq<Record>, id: string)
    requires forall r :: r in rs ==> r.transaction.landId == Some(id)
    ensures CurrentOwner(Transactions(rs), id) ==
            match LastOwnershipRecord(rs)
            case None => None
            case Some(r) => Some(r.transaction.toAddress)
  {
    if rs != [] {
      var n := |rs| - 1;
      assert Transactions(rs)[..|Transactions(rs)| - 1] == Transactions(rs[..n]);
      assert rs[n] in rs;
      LastOwnershipRecordOwner(rs[..n], id);
    }
  }

  /** The two scans agree: the current owner is the target of the last register/transfer record of the land's history. */
  lemma OwnerFromHistory(v: seq<BlockData>, id: string)
    ensures CurrentOwner(AllTxs(v), id) ==
            match LastOwnershipRecord(LandHistory(v, id))
            case None => None
            case Some(r) => Some(r.transaction.toAddress)
  {
    LandHistoryIsFiltered(v, id);
    MatchingTransactions(Tagged(v), id);
    LastOwnershipRecordOwner(LandHistory(v, id), id);
    CurrentOwnerOfFiltered(AllTxs(v), id);
  }

  // ---------------------------------------------------------------------------
  // Balances (get_balance)

  /** `details.get('amount', 0)`: a missing amount is 0; a non-integer one makes the source's arithmetic raise (None). */
  function AmountOf(d: Details): Option<int>
  {
    if "amount" !in d then Some(0)
    else if d["amount"].Int? then Some(d["amount"].n)
    else None
  }

  predicate Touches(t: Tx, address: string)
  {
    t.fromAddress == Some(address) || t.toAddress == address
  }

  /** The source raises on this transaction: it touches `address` and its amount is not an integer. */
  predicate Unreadable(t: Tx, address: string)
  {
    Touches(t, address) && AmountOf(t.details).None?
  }

  /** `get_balance`, folded over the history: debit as sender, credit as recipient; None where the source raises. */
  function Balance(txs: seq<Tx>, address: string): Option<int>
  {
    if txs == [] then Some(0)
    else
      var before := Balance(txs[..|txs| - 1], address);
      var t := txs[|txs| - 1];
      if before.None? || Unreadable(t, address) then None
      else Some(before.value - (if t.fromAddress == Some(address) then AmountOr0(t) else 0)
                             + (if t.toAddress == address then AmountOr0(t) else 0))
  }

  function AmountOr0(t: Tx): int
  {
    if AmountOf(t.details).Some? then AmountOf(t.details).value else 0
  }

  /** Sum of the amounts received by `address`. */
  function Received(txs: seq<Tx>, address: string): int
  {
    if txs == [] then 0
    else Received(txs[..|txs| - 1], address) + (if txs[|txs| - 1].toAddress == address then AmountOr0(txs[|txs| - 1]) else 0)
  }

  /** Sum of the amounts sent by `address`. */
  function Sent(txs: seq<Tx>, address: string): int
  {
    if txs == [] then 0
    else Sent(txs[..|txs| - 1], address) + (if txs[|txs| - 1].fromAddress == Some(address) then AmountOr0(txs[|txs| - 1]) else 0)
  }

  /** Every transaction that touches `address` has an amount the source can add. */
  predicate AmountsReadable(txs: seq<Tx>, address: string)
  {
    forall k :: 0 <= k < |txs| ==> !Unreadable(txs[k], address)
  }

  /** The balance is received minus sent, and fails exactly when a touching transaction has a non-integer amount. */
  lemma {:induction false} BalanceIsReceivedMinusSent(txs: seq<Tx>, address: string)
    ensures Balance(txs, address) ==
            if AmountsReadable(txs, address) then Some(Received(txs, address) - Sent(txs, address)) else None
  {
    if txs != [] {
      var n := |txs| - 1;
      BalanceIsReceivedMinusSent(txs[..n], address);
      assert AmountsReadable(txs, address) <==> AmountsReadable(txs[..n], address) && !Unreadable(txs[n], address) by {
        if AmountsReadable(txs[..n], address) && !Unreadable(txs[n], address) {
          forall k | 0 <= k < |txs| ensures !Unreadable(txs[k], address) {
            if k < n {
              assert txs[k] == txs[..n][k];
            }
          }
        }
        if AmountsReadable(txs, address) {
          forall k | 0 <= k < n ensures !Unreadable(txs[..n][k], address) {
            assert txs[..n][k] == txs[k];
          }
        }
      }
    }
  }

  // ---------------------------------------------------------------------------
  // One step of each fold, for the loops that compute them

  lemma CurrentOwnerStep(s: seq<Tx>, t: Tx, id: string)
    ensures CurrentOwner(s + [t], id) == if IsOwnershipOf(t, id) then Some(t.toAddress) else CurrentOwner(s, id)
  {
    assert (s + [t])[..|s|] == s;
  }

  lemma MatchingStep(rs: seq<Record>, r: Record, id: string)
    ensures Matching(rs + [r], id) == Matching(rs, id) + (if r.transaction.landId == Some(id) then [r] else [])
  {
    assert (rs + [r])[..|rs|] == rs;
  }

  lemma TagTxsStep(b: BlockData, txs: seq<Tx>, j: nat)
    requires j < |txs|
    ensures TagTxs(b, txs[..j + 1]) == TagTxs(b, txs[..j]) + [Record(b.index, txs[j], b.hash)]
  {
    assert txs[..j + 1][..j] == txs[..j];
  }

  lemma BalanceStep(s: seq<Tx>, t: Tx, address: string, b: int)
    requires Balance(s, address) == Some(b)
    ensures Unreadable(t, address) ==> Balance(s + [t], address) == None
    ensures !Unreadable(t, address) ==>
              Balance(s + [t], address) ==
              Some(b - (if t.fromAddress == Some(address) then AmountOr0(t) else 0)
                     + (if t.toAddress == address then AmountOr0(t) else 0))
  {
    assert (s + [t])[..|s|] == s;
  }

  /** The history of a prefix of the chain is a prefix of its history. */
  lemma {:induction false} AllTxsPrefix(v: seq<BlockData>, i: nat)
    requires i <= |v|
    ensures AllTxs(v[..i]) <= AllTxs(v)
  {
    if i < |v| {
      var n := |v| - 1;
      assert v[..n][..i] == v[..i];
      AllTxsPrefix(v[..n], i);
    } else {
      assert v[..i] == v;
    }
  }

  /** Once the source raises, later transactions cannot undo it. */
  lemma {:induction false} BalanceFailureSticks(s: seq<Tx>, t: seq<Tx>, address: string)
    requires Balance(s, address) == None && s <= t
    ensures Balance(t, address) == None
  {
    if |t| > |s| {
      assert s <= t[..|t| - 1];
      BalanceFailureSticks(s, t[..|t| - 1], address);
    } else {
      assert s == t;
    }
  }

  /** One transaction of `get_balance`'s scan, after the history `prefix` and the block's first `j` transactions. */
  lemma BalanceScanStep(prefix: seq<Tx>, txs: seq<Tx>, j: nat, address: string, total: int)
    requires j < |txs| && Balance(prefix + txs[..j], address) == Some(total)
    ensures var t := txs[j];
            if Unreadable(t, address) then
              Balance(prefix + txs[..j + 1], address) == None
            else
              Balance(prefix + txs[..j + 1], address) ==
              Some(total - (if t.fromAddress == Some(address) then AmountOr0(t) else 0)
                         + (if t.toAddress == address then AmountOr0(t) else 0))
  {
    BalanceStep(prefix + txs[..j], txs[j], address, total);
    assert prefix + txs[..j + 1] == (prefix + txs[..j]) + [txs[j]];
  }

  /** One transaction of `get_current_owner`'s scan. */
  lemma CurrentOwnerScanStep(prefix: seq<Tx>, txs: seq<Tx>, j: nat, id: string)
    requires j < |txs|
    ensures CurrentOwner(prefix + txs[..j + 1], id) ==
            if IsOwnershipOf(txs[j], id) then Some(txs[j].toAddress) else CurrentOwner(prefix + txs[..j], id)
  {
    CurrentOwnerStep(prefix + txs[..j], txs[j], id);
    assert prefix + txs[..j + 1] == (prefix + txs[..j]) + [txs[j]];
  }

  /** One transaction of `get_land_history`'s scan. */
  lemma HistoryScanStep(prefix: seq<Record>, b: BlockData, txs: seq<Tx>, j: nat, id: string)
    requires j < |txs|
    ensures Matching(prefix + TagTxs(b, txs[..j + 1]), id) ==
            Matching(prefix + TagTxs(b, txs[..j]), id) +
            (if txs[j].landId == Some(id) then [Record(b.index, txs[j], b.hash)] else [])
  {
    TagTxsStep(b, txs, j);
    var r := Record(b.index, txs[j], b.hash);
    MatchingStep(prefix + TagTxs(b, txs[..j]), r, id);
    assert prefix + TagTxs(b, txs[..j + 1]) == (prefix + TagTxs(b, txs[..j])) + [r];
  }
}
