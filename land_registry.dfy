/**
 * The land registry of land_registry.py: registrations and transfers are
 * checked against the ledger's current owner, recorded as one transaction
 * each and mined at once into a block of their own, with the mining reward
 * going to SYSTEM.  Queries read the ledger's history.
 */
module Registry {

  import opened Wrappers
  import opened Chain
  import opened Reports
  import opened Ledger

  /**
   * The moments one operation reads from the clock: the date written into the
   * details, the transaction's own timestamp, the reward transaction's
   * timestamp and the block's `time.time()`.
   */
  datatype Clock = Clock(detailDate: string, txTime: string, rewardTime: string, blockTime: real)

  /** The dict `register_land` and `transfer_land` return. */
  datatype Response = Failure(message: string) | Success(message: string, transactionHash: string)

  /** The dict `get_land_info` returns. */
  datatype LandInfo =
    | NotFound(message: string)
    | Found(landId: string, currentOwner: string, currentDetails: Details, transactionCount: nat, history: seq<Record>)

  /** The dict `get_blockchain_stats` returns. */
  datatype Stats = Stats(totalBlocks: nat, totalTransactions: nat, totalLandsRegistered: nat, totalTransfers: nat,
                         blockchainValid: bool)

  /** `if current_owner:`: None and the empty address both read as "not registered". */
  predicate Registered(owner: Option<string>)
  {
    owner.Some? && owner.value != ""
  }

  /** The transaction `register_land` records. */
  function RegisterTx(landId: string, ownerName: string, ownerAddress: string, landDetails: Value, clock: Clock): Tx
  {
    Tx(Some("SYSTEM"), ownerAddress, Some(landId), Register,
       map["owner_name" := Str(ownerName), "land_details" := landDetails, "registration_date" := Str(clock.detailDate)],
       clock.txTime)
  }

  /** The transaction `transfer_land` records. */
  function TransferTx(landId: string, fromOwner: string, toOwner: string, toOwnerName: string, transferDetails: Value,
                      clock: Clock): Tx
  {
    Tx(Some(fromOwner), toOwner, Some(landId), Transfer,
       map["new_owner_name" := Str(toOwnerName), "transfer_details" := transferDetails, "transfer_date" := Str(clock.detailDate)],
       clock.txTime)
  }

  /** The block a registry operation mines for `tx` on top of the chain `v`, before its nonce and hash are known. */
  predicate MinedFor(v: seq<BlockData>, b: BlockData, tx: Tx, clock: Clock, hasher: Hasher)
    requires |v| >= 1
  {
    b.index == |v| && b.transactions == [tx, RewardTx("SYSTEM", 100, clock.rewardTime)] &&
    b.timestamp == clock.blockTime && b.previousHash == v[|v| - 1].hash &&
    b.hash == hasher(Header(b)) && MeetsTarget(b.hash, 2)
  }

  /** `current_details`: the details of the last register/transfer record of a history, `{}` when there is none. */
  function CurrentDetails(history: seq<Record>): Details
  {
    match LastOwnershipRecord(history)
    case None => map[]
    case Some(r) => r.transaction.details
  }

  /**
   * A block holding one register/transfer of `landId` to `owner`, then a
   * transaction naming no land, makes `owner` the current owner of that land
   * and leaves every other land's owner as it was.
   */
  lemma OwnershipEventEffect(v: seq<BlockData>, b: BlockData, landId: string, other: string)
    requires |b.transactions| == 2 && IsOwnershipOf(b.transactions[0], landId) && b.transactions[1].landId == None
    ensures CurrentOwner(AllTxs(v + [b]), landId) == Some(b.transactions[0].toAddress)
    ensures other != landId ==> CurrentOwner(AllTxs(v + [b]), other) == CurrentOwner(AllTxs(v), other)
  {
    var t := b.transactions;
    assert (v + [b])[..|v|] == v;
    assert AllTxs(v + [b]) == AllTxs(v) + t;
    assert t[..1][..0] == [] && t[..1] == [t[0]];
    CurrentOwnerAppend(AllTxs(v), t, landId);
    if other != landId {
      assert !IsOwnershipOf(t[0], other) && !IsOwnershipOf(t[1], other);
      assert CurrentOwner(t, other) == CurrentOwner(t[..1], other) == CurrentOwner(t[..1][..0], other);
      CurrentOwnerAppend(AllTxs(v), t, other);
    }
  }

  /**
   * The same block adds exactly one record, for its event, to the history of
   * `landId`, and none to the history of any other land.
   */
  lemma HistoryAfterEvent(v: seq<BlockData>, b: BlockData, landId: string, other: string)
    requires |b.transactions| == 2 && b.transactions[0].landId == Some(landId) && b.transactions[1].landId == None
    ensures LandHistory(v + [b], landId) == LandHistory(v, landId) + [Record(b.index, b.transactions[0], b.hash)]
    ensures other != landId ==> LandHistory(v + [b], other) == LandHistory(v, other)
  {
    var t := b.transactions;
    var r0, r1 := Record(b.index, t[0], b.hash), Record(b.index, t[1], b.hash);
    assert (v + [b])[..|v|] == v;
    assert TagTxs(b, t) == [r0, r1] by {
      assert t[..1][..0] == [] && t[..1] == [t[0]];
      assert TagTxs(b, t[..1]) == TagTxs(b, []) + [r0];
      assert TagTxs(b, t) == TagTxs(b, t[..1]) + [r1];
    }
    assert Tagged(v + [b]) == (Tagged(v) + [r0]) + [r1];
    MatchingStep(Tagged(v), r0, landId);
    MatchingStep(Tagged(v) + [r0], r1, landId);
    MatchingStep(Tagged(v), r0, other);
    MatchingStep(Tagged(v) + [r0], r1, other);
  }

  /** Registration and transfer blocks have the shape every block after genesis has. */
  lemma EventBlockShaped(v: seq<BlockData>, b: BlockData, tx: Tx, clock: Clock, hasher: Hasher)
    requires |v| >= 1 && MinedFor(v, b, tx, clock, hasher)
    requires IsOwnership(tx.kind) && tx.landId.Some? && "amount" !in tx.details
    ensures RegistryBlock(b)
  {
  }

  /** The reverse scan of `get_land_info`: the details of the last register/transfer record, `{}` when none. */
  method LatestDetails(history: seq<Record>) returns (details: Details)
    ensures details == CurrentDetails(history)
  {
    details := map[];
    var i := |history|;
    assert history[..i] == history;
    while i > 0
      invariant 0 <= i <= |history|
      invariant LastOwnershipRecord(history[..i]) == LastOwnershipRecord(history)
    {
      var r := history[i - 1];
      assert history[..i][..i - 1] == history[..i - 1];
      if IsOwnership(r.transaction.kind) {
        details := r.transaction.details;
        return;
      }
      i := i - 1;
    }
  }

  /** `get_all_lands`' table after reading `txs`: the reported ids in insertion order, each keyed to its summary. */
  ghost predicate TableOf(txs: seq<Tx>, order: seq<string>, table: map<string, LandSummary>)
  {
    order == LandIds(txs) && "" !in table &&
    (forall id :: id in table <==> id in order) &&
    forall id :: id in table ==> table[id] == Summary(txs, id)
  }

  /** One transaction of `get_all_lands`' loop keeps the table in step with the history read so far. */
  lemma TableStep(s: seq<Tx>, t: Tx, order: seq<string>, table: map<string, LandSummary>)
    requires TableOf(s, order, table)
    ensures Counted(t) ==>
              var id := t.landId.value;
              var seeded := if id in table then table else table[id := LandSummary(id, t.toAddress, Null, Null, 0)];
              TableOf(s + [t], if id in table then order else order + [id], seeded[id := Advance(seeded[id], t)])
    ensures !Counted(t) ==> TableOf(s + [t], order, table)
  {
    LandIdsStep(s, t);
    if Counted(t) {
      var id := t.landId.value;
      if id !in table {
        NewLandSummary(s, id);
      }
      var seeded := if id in table then table else table[id := LandSummary(id, t.toAddress, Null, Null, 0)];
      var table' := seeded[id := Advance(seeded[id], t)];
      forall other | other in table'
        ensures table'[other] == Summary(s + [t], other)
      {
        SummaryStep(s, t, other);
      }
    } else {
      forall other | other in table
        ensures table[other] == Summary(s + [t], other)
      {
        SummaryStep(s, t, other);
      }
    }
  }

  /** The loop of `get_all_lands` over the tagged transactions: a table of summaries keyed by land id, in insertion order. */
  method SummarizeLands(records: seq<Record>) returns (lands: seq<LandSummary>)
    ensures lands == Summaries(Transactions(records))
  {
    var order: seq<string> := [];
    var table: map<string, LandSummary> := map[];
    ghost var seen: seq<Tx> := [];
    var k := 0;
    while k < |records|
      invariant 0 <= k <= |records| && seen == Transactions(records[..k])
      invariant TableOf(seen, order, table)
    {
      var t := records[k].transaction;
      TransactionsStep(records, k);
      TableStep(seen, t, order, table);
      if t.landId.Some? && t.landId.value != "" && IsOwnership(t.kind) {
        var id := t.landId.value;
        if id !in table {
          table := table[id := LandSummary(id, t.toAddress, Null, Null, 0)];
          order := order + [id];
        }
        table := table[id := Advance(table[id], t)];
      }
      seen := seen + [t];
      k := k + 1;
    }
    assert records[..k] == records;
    lands := seq(|order|, p requires 0 <= p < |order| => table[order[p]]);
  }

  /** The counting loop of `get_blockchain_stats`. */
  method CountEvents(records: seq<Record>) returns (registered: nat, transfers: nat)
    ensures registered == CountKind(Transactions(records), Register)
    ensures transfers == CountKind(Transactions(records), Transfer)
  {
    registered, transfers := 0, 0;
    var k := 0;
    while k < |records|
      invariant 0 <= k <= |records|
      invariant registered == CountKind(Transactions(records[..k]), Register)
      invariant transfers == CountKind(Transactions(records[..k]), Transfer)
    {
      var t := records[k].transaction;
      TransactionsStep(records, k);
      CountKindStep(Transactions(records[..k]), t, Register);
      CountKindStep(Transactions(records[..k]), t, Transfer);
      if t.kind == Register {
        registered := registered + 1;
      } else if t.kind == Transfer {
        transfers := transfers + 1;
      }
      k := k + 1;
    }
    assert records[..k] == records;
  }

  class LandRegistry {
    const blockchain: Blockchain

    /**
     * The registry's invariant: a well-formed ledger with nothing pending,
     * difficulty 2 and reward 100, valid, and built by registry operations only.
     */
    ghost predicate Valid()
      reads this, blockchain, blockchain.chain
    {
      blockchain.Valid() && blockchain.pendingTransactions == [] &&
      blockchain.difficulty == 2 && blockchain.miningReward == 100 &&
      ChainValid(blockchain.View(), blockchain.hasher) && RegistryShaped(blockchain.View())
    }

    /** A new registry holds a fresh ledger with only its genesis block; loading from a file is a no-op. */
    constructor (hasher: Hasher, genesisTime: real)
      requires Mineable(hasher, 2)
      ensures Valid() && fresh(blockchain) && blockchain.hasher == hasher
      ensures blockchain.View() == [BlockData(0, [], genesisTime, "0", 0, hasher(HashInput(0, [], genesisTime, "0", 0)))]
    {
      var ledger := new Blockchain(hasher, genesisTime);
      assert ledger.View()[0].transactions == [];
      blockchain := ledger;
    }

    /**
     * `register_land`: refused while the land has a (non-empty) owner;
     * otherwise one registration and its reward are mined into a new block
     * and the land belongs to `ownerAddress`.
     */
    method RegisterLand(landId: string, ownerName: string, ownerAddress: string, landDetails: Value, clock: Clock)
      returns (response: Response)
      requires Valid()
      modifies blockchain
      ensures Valid()
      ensures var owner := CurrentOwner(AllTxs(old(blockchain.View())), landId);
              Registered(owner) ==>
                response == Failure("Land " + landId + " is already registered to " + owner.value) &&
                blockchain.View() == old(blockchain.View())
      ensures var owner := CurrentOwner(AllTxs(old(blockchain.View())), landId);
              !Registered(owner) ==>
                var v := old(blockchain.View());
                |blockchain.View()| == |v| + 1 && blockchain.View()[..|v|] == v &&
                var b := blockchain.View()[|v|];
                MinedFor(v, b, RegisterTx(landId, ownerName, ownerAddress, landDetails, clock), clock, blockchain.hasher) &&
                response == Success("Land " + landId + " successfully registered to " + ownerName, b.hash) &&
                CurrentOwner(AllTxs(blockchain.View()), landId) == Some(ownerAddress) &&
                forall other :: other != landId ==>
                  CurrentOwner(AllTxs(blockchain.View()), other) == CurrentOwner(AllTxs(v), other)
    {
      ghost var v := blockchain.View();
      var current := blockchain.GetCurrentOwner(landId);
      assert blockchain.View() == v;
      if Registered(current) {
        return Failure("Land " + landId + " is already registered to " + current.value);
      }
      var tx := RegisterTx(landId, ownerName, ownerAddress, landDetails, clock);
      var hash := MineEvent(tx, clock);
      response := Success("Land " + landId + " successfully registered to " + ownerName, hash);
    }

    /**
     * `transfer_land`: refused when the land has no (non-empty) owner or
     * `fromOwner` is not that owner; otherwise one transfer and its reward are
     * mined into a new block and the land belongs to `toOwner`.
     */
    method TransferLand(landId: string, fromOwner: string, toOwner: string, toOwnerName: string, transferDetails: Value,
                        clock: Clock)
      returns (response: Response)
      requires Valid()
      modifies blockchain
      ensures Valid()
      ensures var owner := CurrentOwner(AllTxs(old(blockchain.View())), landId);
              !Registered(owner) ==>
                response == Failure("Land " + landId + " is not registered") &&
                blockchain.View() == old(blockchain.View())
      ensures var owner := CurrentOwner(AllTxs(old(blockchain.View())), landId);
              Registered(owner) && owner.value != fromOwner ==>
                response == Failure("Only the current owner (" + owner.value + ") can transfer this land") &&
                blockchain.View() == old(blockchain.View())
      ensures var owner := CurrentOwner(AllTxs(old(blockchain.View())), landId);
              Registered(owner) && owner.value == fromOwner ==>
                var v := old(blockchain.View());
                |blockchain.View()| == |v| + 1 && blockchain.View()[..|v|] == v &&
                var b := blockchain.View()[|v|];
                MinedFor(v, b, TransferTx(landId, fromOwner, toOwner, toOwnerName, transferDetails, clock), clock, blockchain.hasher) &&
                response == Success("Land " + landId + " successfully transferred to " + toOwnerName, b.hash) &&
                CurrentOwner(AllTxs(blockchain.View()), landId) == Some(toOwner) &&
                forall other :: other != landId ==>
                  CurrentOwner(AllTxs(blockchain.View()), other) == CurrentOwner(AllTxs(v), other)
    {
      ghost var v := blockchain.View();
      var current := blockchain.GetCurrentOwner(landId);
      assert blockchain.View() == v;
      if !Registered(current) {
        return Failure("Land " + landId + " is not registered");
      }
      if current.value != fromOwner {
        return Failure("Only the current owner (" + current.value + ") can transfer this land");
      }
      var tx := TransferTx(landId, fromOwner, toOwner, toOwnerName, transferDetails, clock);
      var hash := MineEvent(tx, clock);
      response := Success("Land " + landId + " successfully transferred to " + toOwnerName, hash);
    }

    /**
     * The steps `register_land` and `transfer_land` share once the check has
     * passed: queue `tx`, mine it with the reward to SYSTEM and return the
     * new tip's hash.  Saving to the file is not modelled.
     */
    method MineEvent(tx: Tx, clock: Clock) returns (hash: string)
      requires Valid() && IsOwnership(tx.kind) && tx.landId.Some? && "amount" !in tx.details
      modifies blockchain
      ensures Valid()
      ensures var v := old(blockchain.View());
              |blockchain.View()| == |v| + 1 && blockchain.View()[..|v|] == v &&
              var b := blockchain.View()[|v|];
              MinedFor(v, b, tx, clock, blockchain.hasher) && hash == b.hash &&
              CurrentOwner(AllTxs(blockchain.View()), tx.landId.value) == Some(tx.toAddress) &&
              forall other :: other != tx.landId.value ==>
                CurrentOwner(AllTxs(blockchain.View()), other) == CurrentOwner(AllTxs(v), other)
    {
      ghost var v := blockchain.View();
      blockchain.AddTransaction(tx);
      blockchain.MinePendingTransactions("SYSTEM", clock.rewardTime, clock.blockTime);
      var latest := blockchain.LatestBlock();
      hash := latest.hash;
      ghost var b := blockchain.View()[|v|];
      assert blockchain.View() == v + [b];
      EventBlockShaped(v, b, tx, clock, blockchain.hasher);
      ShapedAppend(v, b);
      OwnershipEventEffect(v, b, tx.landId.value, tx.landId.value);
      forall other | other != tx.landId.value
        ensures CurrentOwner(AllTxs(blockchain.View()), other) == CurrentOwner(AllTxs(v), other)
      {
        OwnershipEventEffect(v, b, tx.landId.value, other);
      }
    }

    /**
     * `get_land_info`: NotFound unless the land has a (non-empty) owner;
     * otherwise the owner, the land's whole history, its length and the
     * details of its last register/transfer.
     */
    method GetLandInfo(landId: string) returns (info: LandInfo)
      ensures var v := blockchain.View();
              var owner := CurrentOwner(AllTxs(v), landId);
              if Registered(owner) then
                info == Found(landId, owner.value, CurrentDetails(LandHistory(v, landId)), |LandHistory(v, landId)|,
                              LandHistory(v, landId))
              else
                info == NotFound("Land " + landId + " is not registered")
      ensures info.Found? ==>
                LastOwnershipRecord(info.history).Some? &&
                LastOwnershipRecord(info.history).value.transaction.toAddress == info.currentOwner &&
                LastOwnershipRecord(info.history).value.transaction.details == info.currentDetails
    {
      var owner := blockchain.GetCurrentOwner(landId);
      if !Registered(owner) {
        return NotFound("Land " + landId + " is not registered");
      }
      var history := blockchain.GetLandHistory(landId);
      var details := LatestDetails(history);
      OwnerFromHistory(blockchain.View(), landId);
      info := Found(landId, owner.value, details, |history|, history);
    }

    /** `get_all_lands`: one summary per land with a register/transfer event, in order of first appearance. */
    method GetAllLands() returns (lands: seq<LandSummary>)
      ensures lands == Summaries(AllTxs(blockchain.View()))
    {
      ghost var v := blockchain.View();
      var records := blockchain.GetAllTransactions();
      assert records == Tagged(v);
      TaggedIsAllTxs(v);
      lands := SummarizeLands(records);
      assert blockchain.View() == v;
    }

    /** `verify_blockchain_integrity`: the ledger's own check; a registry's chain always passes it. */
    method VerifyBlockchainIntegrity() returns (valid: bool)
      requires blockchain.Valid()
      ensures valid == ChainValid(blockchain.View(), blockchain.hasher)
      ensures Valid() ==> valid
    {
      valid := blockchain.IsChainValid();
    }

    /**
     * `get_blockchain_stats`: block and transaction totals, registrations and
     * transfers counted, and the integrity check.  On a registry's chain every
     * mined block holds one event and one reward, and the check passes.
     */
    method GetBlockchainStats() returns (stats: Stats)
      requires Valid()
      ensures var v := blockchain.View();
              var txs := AllTxs(v);
              stats == Stats(|v|, |txs|, CountKind(txs, Register), CountKind(txs, Transfer), ChainValid(v, blockchain.hasher))
      ensures stats.blockchainValid && stats.totalTransactions == 2 * (stats.totalBlocks - 1)
      ensures stats.totalLandsRegistered + stats.totalTransfers == stats.totalBlocks - 1
    {
      ghost var v := blockchain.View();
      var all := blockchain.GetAllTransactions();
      assert all == Tagged(v);
      var valid := VerifyBlockchainIntegrity();
      assert valid == ChainValid(v, blockchain.hasher);
      var registered, transfers := CountEvents(all);
      assert blockchain.View() == v;
      TaggedIsAllTxs(v);
      ShapedTotals(v);
      stats := Stats(|blockchain.chain|, |all|, registered, transfers, valid);
    }
  }
}
