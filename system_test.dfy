/**
 * The end-to-end run of test_blockchain_system.py on a fresh registry, with
 * each outcome the script checks derived from the operations' contracts
 * alone.  The script's land ids (LAND001, LAND002, LAND999) and addresses
 * are parameters: the outcomes hold for any distinct ids and non-empty
 * addresses.
 */
module SystemTest {

  import opened Wrappers
  import opened Chain
  import opened Reports
  import opened Ledger
  import opened Registry

  /** A fresh registry: only the genesis block, so no land has an owner or a history. */
  method Open(hasher: Hasher, genesisTime: real, sold: string, kept: string, unknown: string)
    returns (registry: LandRegistry)
    requires Mineable(hasher, 2)
    ensures fresh(registry) && fresh(registry.blockchain) && registry.Valid()
    ensures |registry.blockchain.View()| == 1
    ensures CurrentOwner(AllTxs(registry.blockchain.View()), sold) == None
    ensures CurrentOwner(AllTxs(registry.blockchain.View()), kept) == None
    ensures CurrentOwner(AllTxs(registry.blockchain.View()), unknown) == None
    ensures LandHistory(registry.blockchain.View(), sold) == []
  {
    registry := new LandRegistry(hasher, genesisTime);
    ghost var v0 := registry.blockchain.View();
    assert AllTxs(v0) == [] && Tagged(v0) == [] by {
      assert |v0| == 1 && v0[..0] == [] && v0[0].transactions == [];
      assert Tagged(v0) == Tagged(v0[..0]) + TagTxs(v0[0], v0[0].transactions);
    }
  }

  /** Test 1 of the script: `sold` is recorded for `seller`. */
  method RegisterFirst(registry: LandRegistry, sold: string, kept: string, unknown: string,
                       seller: string, d1: Value, c1: Clock)
    returns (r1: Response)
    requires registry.Valid() && |registry.blockchain.View()| == 1
    requires sold != kept && unknown != sold && unknown != kept
    requires CurrentOwner(AllTxs(registry.blockchain.View()), sold) == None
    requires CurrentOwner(AllTxs(registry.blockchain.View()), kept) == None
    requires CurrentOwner(AllTxs(registry.blockchain.View()), unknown) == None
    requires LandHistory(registry.blockchain.View(), sold) == []
    modifies registry.blockchain
    ensures registry.Valid() && r1.Success? && |registry.blockchain.View()| == 2
    ensures CurrentOwner(AllTxs(registry.blockchain.View()), sold) == Some(seller)
    ensures CurrentOwner(AllTxs(registry.blockchain.View()), kept) == None
    ensures CurrentOwner(AllTxs(registry.blockchain.View()), unknown) == None
    ensures |LandHistory(registry.blockchain.View(), sold)| == 1
  {
    ghost var v0 := registry.blockchain.View();
    r1 := registry.RegisterLand(sold, "John Doe", seller, d1, c1);
    ghost var v1 := registry.blockchain.View();
    assert v1 == v0 + [v1[|v0|]];
    HistoryAfterEvent(v0, v1[|v0|], sold, kept);
  }

  /** Test 2 of the script: `kept` is recorded for `keeper`; `sold` is untouched. */
  method RegisterSecond(registry: LandRegistry, sold: string, kept: string, unknown: string,
                        seller: string, keeper: string, d2: Value, c2: Clock)
    returns (r2: Response)
    requires registry.Valid() && |registry.blockchain.View()| == 2
    requires sold != kept && unknown != sold && unknown != kept
    requires CurrentOwner(AllTxs(registry.blockchain.View()), sold) == Some(seller)
    requires CurrentOwner(AllTxs(registry.blockchain.View()), kept) == None
    requires CurrentOwner(AllTxs(registry.blockchain.View()), unknown) == None
    requires |LandHistory(registry.blockchain.View(), sold)| == 1
    modifies registry.blockchain
    ensures registry.Valid() && r2.Success? && |registry.blockchain.View()| == 3
    ensures CurrentOwner(AllTxs(registry.blockchain.View()), sold) == Some(seller)
    ensures CurrentOwner(AllTxs(registry.blockchain.View()), unknown) == None
    ensures |LandHistory(registry.blockchain.View(), sold)| == 1
  {
    ghost var v1 := registry.blockchain.View();
    r2 := registry.RegisterLand(kept, "Jane Smith", keeper, d2, c2);
    ghost var v2 := registry.blockchain.View();
    assert v2 == v1 + [v2[|v1|]];
    HistoryAfterEvent(v1, v2[|v1|], kept, sold);
  }

  /** Test 3 of the script: `sold` passes from `seller` to `buyer`. */
  method TransferSold(registry: LandRegistry, sold: string, unknown: string, seller: string, buyer: string,
                      d3: Value, c3: Clock)
    returns (r3: Response)
    requires registry.Valid() && |registry.blockchain.View()| == 3
    requires unknown != sold && seller != ""
    requires CurrentOwner(AllTxs(registry.blockchain.View()), sold) == Some(seller)
    requires CurrentOwner(AllTxs(registry.blockchain.View()), unknown) == None
    requires |LandHistory(registry.blockchain.View(), sold)| == 1
    modifies registry.blockchain
    ensures registry.Valid() && r3.Success? && |registry.blockchain.View()| == 4
    ensures CurrentOwner(AllTxs(registry.blockchain.View()), sold) == Some(buyer)
    ensures CurrentOwner(AllTxs(registry.blockchain.View()), unknown) == None
    ensures |LandHistory(registry.blockchain.View(), sold)| == 2
  {
    ghost var v2 := registry.blockchain.View();
    r3 := registry.TransferLand(sold, seller, buyer, "ABC Corporation", d3, c3);
    ghost var v3 := registry.blockchain.View();
    assert v3 == v2 + [v3[|v2|]];
    HistoryAfterEvent(v2, v3[|v2|], sold, unknown);
  }

  /**
   * Tests 4, 6 and 7 of the script: the sold land reports its buyer and two
   * events, the chain verifies, and the statistics count four blocks and six
   * transactions, three of them registrations or transfers.
   */
  method Inspect(registry: LandRegistry, sold: string, buyer: string)
    returns (info: LandInfo, valid: bool, stats: Stats)
    requires registry.Valid() && |registry.blockchain.View()| == 4 && buyer != ""
    requires CurrentOwner(AllTxs(registry.blockchain.View()), sold) == Some(buyer)
    requires |LandHistory(registry.blockchain.View(), sold)| == 2
    ensures info.Found? && info.currentOwner == buyer && info.transactionCount == 2
    ensures valid
    ensures stats.totalBlocks == 4 && stats.totalTransactions == 6 && stats.blockchainValid
    ensures stats.totalLandsRegistered + stats.totalTransfers == 3
  {
    info := registry.GetLandInfo(sold);
    valid := registry.VerifyBlockchainIntegrity();
    stats := registry.GetBlockchainStats();
  }

  /**
   * Tests 8 and 9 of the script: registering the sold land again and
   * transferring the unknown one are refused with the source's messages.
   */
  method Refuse(registry: LandRegistry, sold: string, unknown: string, buyer: string, d8: Value, d9: Value,
                c8: Clock, c9: Clock)
    returns (r8: Response, r9: Response)
    requires registry.Valid() && buyer != ""
    requires CurrentOwner(AllTxs(registry.blockchain.View()), sold) == Some(buyer)
    requires CurrentOwner(AllTxs(registry.blockchain.View()), unknown) == None
    modifies registry.blockchain
    ensures r8 == Failure("Land " + sold + " is already registered to " + buyer)
    ensures r9 == Failure("Land " + unknown + " is not registered")
  {
    ghost var v := registry.blockchain.View();
    r8 := registry.RegisterLand(sold, "Test User", "Test Address", d8, c8);
    assert registry.blockchain.View() == v;
    r9 := registry.TransferLand(unknown, "Test Owner", "New Owner", "New Owner Name", d9, c9);
  }

  /** Tests 1 to 3 of the script on a fresh registry. */
  method Build(hasher: Hasher, genesisTime: real, sold: string, kept: string, unknown: string,
               seller: string, keeper: string, buyer: string, d1: Value, d2: Value, d3: Value,
               c1: Clock, c2: Clock, c3: Clock)
    returns (registry: LandRegistry, r1: Response, r2: Response, r3: Response)
    requires Mineable(hasher, 2)
    requires sold != kept && unknown != sold && unknown != kept && seller != ""
    ensures fresh(registry) && fresh(registry.blockchain) && registry.Valid()
    ensures r1.Success? && r2.Success? && r3.Success? && |registry.blockchain.View()| == 4
    ensures CurrentOwner(AllTxs(registry.blockchain.View()), sold) == Some(buyer)
    ensures CurrentOwner(AllTxs(registry.blockchain.View()), unknown) == None
    ensures |LandHistory(registry.blockchain.View(), sold)| == 2
  {
    registry := Open(hasher, genesisTime, sold, kept, unknown);
    r1 := RegisterFirst(registry, sold, kept, unknown, seller, d1, c1);
    r2 := RegisterSecond(registry, sold, kept, unknown, seller, keeper, d2, c2);
    r3 := TransferSold(registry, sold, unknown, seller, buyer, d3, c3);
  }

  /** The whole script on a fresh registry, except the listing of test 5. */
  method EndToEnd(hasher: Hasher, genesisTime: real, sold: string, kept: string, unknown: string,
                  seller: string, keeper: string, buyer: string,
                  d1: Value, d2: Value, d3: Value, d8: Value, d9: Value,
                  c1: Clock, c2: Clock, c3: Clock, c8: Clock, c9: Clock)
    returns (r1: Response, r2: Response, r3: Response, info: LandInfo, valid: bool, stats: Stats,
             r8: Response, r9: Response)
    requires Mineable(hasher, 2)
    requires sold != kept && unknown != sold && unknown != kept && seller != "" && buyer != ""
    ensures r1.Success? && r2.Success? && r3.Success?
    ensures info.Found? && info.currentOwner == buyer && info.transactionCount == 2
    ensures valid
    ensures stats.totalBlocks == 4 && stats.totalTransactions == 6 && stats.blockchainValid
    ensures stats.totalLandsRegistered + stats.totalTransfers == 3
    ensures r8 == Failure("Land " + sold + " is already registered to " + buyer)
    ensures r9 == Failure("Land " + unknown + " is not registered")
  {
    var registry;
    registry, r1, r2, r3 := Build(hasher, genesisTime, sold, kept, unknown, seller, keeper, buyer,
                                  d1, d2, d3, c1, c2, c3);
    info, valid, stats := Inspect(registry, sold, buyer);
    r8, r9 := Refuse(registry, sold, unknown, buyer, d8, d9, c8, c9);
  }
}
