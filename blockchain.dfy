/**
 * The ledger of blockchain.py: blocks whose nonce and hash the proof-of-work
 * search updates in place, and a chain that only grows, with a buffer of
 * pending transactions.
 */
module Ledger {

  import opened Wrappers
  import opened Chain

  class Block {
    const index: nat
    const transactions: seq<Tx>
    const timestamp: real
    const previousHash: string
    /** The hash function `calculate_hash` applies. */
    const hasher: Hasher
    var nonce: nat
    var hash: string

    /**
     * A new block stores its fields and the hash of them; it is not mined yet.
     * Every caller passes the source's default nonce, 0.
     */
    constructor (index: nat, transactions: seq<Tx>, timestamp: real, previousHash: string, nonce: nat, hasher: Hasher)
      ensures this.index == index && this.transactions == transactions && this.timestamp == timestamp
      ensures this.previousHash == previousHash && this.hasher == hasher
      ensures this.nonce == nonce && hash == hasher(HashInput(index, transactions, timestamp, previousHash, nonce))
    {
      this.index := index;
      this.transactions := transactions;
      this.timestamp := timestamp;
      this.previousHash := previousHash;
      this.hasher := hasher;
      this.nonce := nonce;
      new;
      hash := CalculateHash();
    }

    /** The hash of the five fields; it reads nothing else. */
    function CalculateHash(): (h: string)
      reads this
      ensures h == hasher(Header(Data()))
    {
      hasher(HashInput(index, transactions, timestamp, previousHash, nonce))
    }

    function Data(): BlockData
      reads this
    {
      BlockData(index, transactions, timestamp, previousHash, nonce, hash)
    }

    /**
     * Proof of work: raise the nonce until the hash starts with `difficulty`
     * zeros.  The search ends because some nonce at or above the current one
     * meets the target; the nonce found is the first such.
     */
    method MineBlock(difficulty: nat)
      requires hash == CalculateHash()
      requires exists n: nat :: n >= nonce && MeetsTarget(hasher(HashInput(index, transactions, timestamp, previousHash, n)), difficulty)
      modifies this
      ensures hash == CalculateHash() && MeetsTarget(hash, difficulty)
      ensures old(nonce) <= nonce
      ensures forall n: nat :: old(nonce) <= n < nonce ==>
                !MeetsTarget(hasher(HashInput(index, transactions, timestamp, previousHash, n)), difficulty)
    {
      ghost var w: nat :| w >= nonce && MeetsTarget(hasher(HashInput(index, transactions, timestamp, previousHash, w)), difficulty);
      var target := Zeros(difficulty);
      PrefixTest(hash, difficulty);
      while Prefix(hash, difficulty) != target
        invariant old(nonce) <= nonce <= w
        invariant hash == CalculateHash()
        invariant (Prefix(hash, difficulty) == target) <==> MeetsTarget(hash, difficulty)
        invariant forall n: nat :: old(nonce) <= n < nonce ==>
                    !MeetsTarget(hasher(HashInput(index, transactions, timestamp, previousHash, n)), difficulty)
        decreases w - nonce
      {
        nonce := nonce + 1;
        hash := CalculateHash();
        PrefixTest(hash, difficulty);
      }
    }
  }

  /** Snapshot of a sequence of blocks as values. */
  function Snapshot(bs: seq<Block>): (v: seq<BlockData>)
    reads bs
    ensures |v| == |bs| && forall i :: 0 <= i < |bs| ==> v[i] == bs[i].Data()
  {
    if bs == [] then [] else Snapshot(bs[..|bs| - 1]) + [bs[|bs| - 1].Data()]
  }

  /** Block i has index i and the hash function `h`. */
  ghost predicate Indexed(bs: seq<Block>, h: Hasher)
  {
    forall i :: 0 <= i < |bs| ==> bs[i].index == i && bs[i].hasher == h
  }

  /** Appending the block whose index is the chain's length keeps the chain indexed. */
  lemma IndexedAppend(bs: seq<Block>, b: Block, h: Hasher)
    requires Indexed(bs, h) && b.index == |bs| && b.hasher == h
    ensures Indexed(bs + [b], h)
  {
    forall i | 0 <= i < |bs| + 1 ensures (bs + [b])[i].index == i && (bs + [b])[i].hasher == h {
      if i < |bs| {
        assert (bs + [b])[i] == bs[i];
      }
    }
  }

  /** The block `mine_pending_transactions` builds with nonce 0 and then mines. */
  method NewMinedBlock(index: nat, transactions: seq<Tx>, timestamp: real, previousHash: string, difficulty: nat,
                       hasher: Hasher)
    returns (block: Block)
    requires Solvable(hasher, difficulty, index, transactions, timestamp, previousHash)
    ensures fresh(block) && block.hasher == hasher
    ensures block.index == index && block.transactions == transactions && block.timestamp == timestamp
    ensures block.previousHash == previousHash
    ensures block.hash == hasher(Header(block.Data())) && MeetsTarget(block.hash, difficulty)
  {
    block := new Block(index, transactions, timestamp, previousHash, 0, hasher);
    block.MineBlock(difficulty);
  }

  /** `create_genesis_block`: index 0, no transactions, previous hash "0"; never mined. */
  method CreateGenesisBlock(hasher: Hasher, timestamp: real) returns (genesis: Block)
    ensures fresh(genesis) && genesis.hasher == hasher
    ensures genesis.Data() == BlockData(0, [], timestamp, "0", 0, hasher(HashInput(0, [], timestamp, "0", 0)))
  {
    genesis := new Block(0, [], timestamp, "0", 0, hasher);
  }

  /**
   * The inner loop of `get_balance` over one block's transactions, carrying
   * the running `total` of the history `prefix` before them; None where the
   * source raises on an amount that is not an integer.
   */
  method ScanBalance(ghost prefix: seq<Tx>, txs: seq<Tx>, address: string, start: int) returns (total: Option<int>)
    requires Balance(prefix, address) == Some(start)
    ensures total == Balance(prefix + txs, address)
  {
    var sum := start;
    var j := 0;
    assert prefix + txs[..0] == prefix;
    while j < |txs|
      invariant 0 <= j <= |txs|
      invariant Balance(prefix + txs[..j], address) == Some(sum)
    {
      var t := txs[j];
      BalanceScanStep(prefix, txs, j, address, sum);
      var amount := AmountOf(t.details);
      if t.fromAddress == Some(address) {
        if amount.None? {
          assert prefix + txs[..j + 1] <= prefix + txs;
          BalanceFailureSticks(prefix + txs[..j + 1], prefix + txs, address);
          return None;
        }
        sum := sum - amount.value;
      }
      if t.toAddress == address {
        if amount.None? {
          assert prefix + txs[..j + 1] <= prefix + txs;
          BalanceFailureSticks(prefix + txs[..j + 1], prefix + txs, address);
          return None;
        }
        sum := sum + amount.value;
      }
      j := j + 1;
    }
    assert txs[..j] == txs;
    total := Some(sum);
  }

  class Blockchain {
    var chain: seq<Block>
    const difficulty: nat
    var pendingTransactions: seq<Tx>
    const miningReward: int
    const hasher: Hasher

    /** The representation invariant: a non-empty chain whose block i has index i and this chain's hash function. */
    ghost predicate Valid()
      reads this, chain
    {
      |chain| >= 1 && Mineable(hasher, difficulty) && Indexed(chain, hasher)
    }

    /** The chain as values. */
    function View(): (v: seq<BlockData>)
      reads this, chain
      ensures |v| == |chain|
    {
      Snapshot(chain)
    }

    /** A new ledger holds only the unmined genesis block; difficulty 2, reward 100, nothing pending. */
    constructor (hasher: Hasher, genesisTime: real)
      requires Mineable(hasher, 2)
      ensures Valid() && fresh(chain[0])
      ensures View() == [BlockData(0, [], genesisTime, "0", 0, hasher(HashInput(0, [], genesisTime, "0", 0)))]
      ensures difficulty == 2 && pendingTransactions == [] && miningReward == 100 && this.hasher == hasher
      ensures ChainValid(View(), hasher)
    {
      var genesis := CreateGenesisBlock(hasher, genesisTime);
      chain := [genesis];
      difficulty := 2;
      pendingTransactions := [];
      miningReward := 100;
      this.hasher := hasher;
    }

    /** `get_latest_block` */
    function LatestBlock(): (b: Block)
      reads this, chain
      requires Valid()
      ensures b in chain && b.index == |chain| - 1
    {
      chain[|chain| - 1]
    }

    /** Queue one transaction; the chain is untouched. */
    method AddTransaction(transaction: Tx)
      modifies this
      ensures pendingTransactions == old(pendingTransactions) + [transaction]
      ensures chain == old(chain)
    {
      pendingTransactions := pendingTransactions + [transaction];
    }

    /**
     * Seal every pending transaction plus one reward into a mined block linked
     * to the tip, append it and empty the buffer.
     */
    method MinePendingTransactions(miningRewardAddress: string, rewardTime: string, blockTime: real)
      requires Valid()
      modifies this
      ensures Valid() && pendingTransactions == []
      ensures |chain| == |old(chain)| + 1 && chain[..|old(chain)|] == old(chain) && fresh(chain[|old(chain)|])
      ensures View() == old(View()) + [chain[|old(chain)|].Data()]
      ensures var b := chain[|old(chain)|];
              b.index == |old(chain)| &&
              b.transactions == old(pendingTransactions) + [RewardTx(miningRewardAddress, miningReward, rewardTime)] &&
              b.timestamp == blockTime && b.previousHash == old(chain[|chain| - 1].hash) &&
              b.hash == hasher(Header(b.Data())) && MeetsTarget(b.hash, difficulty)
      ensures ChainValid(View(), hasher) <==> old(ChainValid(View(), hasher))
    {
      ghost var before := View();
      ghost var oldChain := chain;
      var reward := RewardTx(miningRewardAddress, miningReward, rewardTime);
      pendingTransactions := pendingTransactions + [reward];
      var tip := LatestBlock().hash;
      assert Solvable(hasher, difficulty, |chain|, pendingTransactions, blockTime, tip);
      var block := NewMinedBlock(|chain|, pendingTransactions, blockTime, tip, difficulty, hasher);
      chain := chain + [block];
      pendingTransactions := [];
      assert chain[..|chain| - 1] == oldChain;
      assert Snapshot(oldChain) == before;
      assert View() == before + [block.Data()];
      assert forall i :: 0 <= i < |oldChain| ==> chain[i] == oldChain[i];
      ChainValidAppend(before, hasher, block.Data());
      IndexedAppend(oldChain, block, hasher);
    }

    /** `get_balance`: None where the source raises on a non-integer amount. */
    method GetBalance(address: string) returns (balance: Option<int>)
      ensures balance == Balance(AllTxs(View()), address)
    {
      ghost var v := View();
      var total := 0;
      var i := 0;
      while i < |chain|
        invariant 0 <= i <= |chain|
        invariant Balance(AllTxs(v[..i]), address) == Some(total)
      {
        AllTxsStep(v, i);
        var scanned := ScanBalance(AllTxs(v[..i]), chain[i].transactions, address, total);
        if scanned.None? {
          AllTxsPrefix(v, i + 1);
          BalanceFailureSticks(AllTxs(v[..i + 1]), AllTxs(v), address);
          assert View() == v;
          return None;
        }
        total := scanned.value;
        i := i + 1;
      }
      assert v[..i] == v;
      balance := Some(total);
    }

    /** `get_land_history`: every transaction naming `landId`, tagged with its block. */
    method GetLandHistory(landId: string) returns (history: seq<Record>)
      ensures history == LandHistory(View(), landId)
    {
      ghost var v := View();
      history := [];
      var i := 0;
      while i < |chain|
        invariant 0 <= i <= |chain|
        invariant history == Matching(Tagged(v[..i]), landId)
      {
        var block := chain[i];
        var txs := block.transactions;
        ghost var prefix := Tagged(v[..i]);
        assert block.Data() == v[i];
        assert prefix + TagTxs(v[i], txs[..0]) == prefix;
        var j := 0;
        while j < |txs|
          invariant 0 <= j <= |txs|
          invariant history == Matching(prefix + TagTxs(v[i], txs[..j]), landId)
        {
          var t := txs[j];
          HistoryScanStep(prefix, v[i], txs, j, landId);
          if t.landId == Some(landId) {
            history := history + [Record(block.index, t, block.hash)];
          }
          j := j + 1;
        }
        assert txs[..j] == txs;
        TaggedStep(v, i);
        i := i + 1;
      }
      assert v[..i] == v;
    }

    /** `get_current_owner`: the target of the last register/transfer of `landId`, or None. */
    method GetCurrentOwner(landId: string) returns (owner: Option<string>)
      ensures owner == CurrentOwner(AllTxs(View()), landId)
    {
      ghost var v := View();
      owner := None;
      var i := 0;
      while i < |chain|
        invariant 0 <= i <= |chain|
        invariant owner == CurrentOwner(AllTxs(v[..i]), landId)
      {
        var txs := chain[i].transactions;
        ghost var prefix := AllTxs(v[..i]);
        assert prefix + txs[..0] == prefix;
        var j := 0;
        while j < |txs|
          invariant 0 <= j <= |txs|
          invariant owner == CurrentOwner(prefix + txs[..j], landId)
        {
          var t := txs[j];
          CurrentOwnerScanStep(prefix, txs, j, landId);
          if t.landId == Some(landId) && IsOwnership(t.kind) {
            owner := Some(t.toAddress);
          }
          j := j + 1;
        }
        assert txs[..j] == txs;
        AllTxsStep(v, i);
        i := i + 1;
      }
      assert v[..i] == v;
    }

    /** `is_chain_valid`: every block after genesis holds its own hash and links to its predecessor. */
    method IsChainValid() returns (valid: bool)
      requires Valid()
      ensures valid == ChainValid(View(), hasher)
    {
      ghost var v := View();
      var i := 1;
      while i < |chain|
        invariant 1 <= i <= |chain|
        invariant forall k :: 1 <= k < i ==> LinkedAt(v, hasher, k)
      {
        var current := chain[i];
        var previous := chain[i - 1];
        assert current.Data() == v[i] && previous.Data() == v[i - 1];
        if current.hash != current.CalculateHash() {
          assert !LinkedAt(v, hasher, i);
          return false;
        }
        if current.previousHash != previous.hash {
          assert !LinkedAt(v, hasher, i);
          return false;
        }
        i := i + 1;
      }
      valid := true;
    }

    /** `get_all_transactions`: every transaction in chain order, tagged with its block's index and hash. */
    method GetAllTransactions() returns (all: seq<Record>)
      ensures all == Tagged(View())
    {
      ghost var v := View();
      all := [];
      var i := 0;
      while i < |chain|
        invariant 0 <= i <= |chain|
        invariant all == Tagged(v[..i])
      {
        var block := chain[i];
        var txs := block.transactions;
        assert block.Data() == v[i];
        var j := 0;
        TaggedStep(v, i);
        while j < |txs|
          invariant 0 <= j <= |txs|
          invariant all == Tagged(v[..i]) + TagTxs(v[i], txs[..j])
        {
          TagTxsStep(v[i], txs, j);
          all := all + [Record(block.index, txs[j], block.hash)];
          j := j + 1;
        }
        assert txs[..j] == txs;
        i := i + 1;
      }
      assert v[..i] == v;
    }
  }
}
