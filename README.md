# Land registry ledger — a Dafny model

This project models the core of a small land-registry blockchain written in
Python:

- `blockchain.py`: an append-only ledger.
  - Blocks are sealed by a proof-of-work search over a nonce.
  - Transactions queue in a pending buffer until a mining step seals them,
    together with one mining reward, into a block linked to the previous
    block's hash.
  - Queries replay the whole history: current owner of a land, land history,
    balance, all transactions, and chain validity.
- `land_registry.py`: the registry layer on top of the ledger. It refuses
  double registration, a transfer of an unregistered land and a transfer by
  anyone but the current owner. Every accepted operation queues one event
  and mines it straight away. It also reports on the history: land info,
  all lands, and statistics.

Structure:

- `wrappers.dfy` (`Wrappers`): `Option`.
- `chain.dfy` (`Chain`): transactions and block values, the hash as a
  function parameter, and the pure history folds that specify each query.
  Also lemmas about them: validity of an extended or tampered chain, owner as
  last event, history as a filter, balance as received minus sent.
- `blockchain.dfy` (`Ledger`): the classes.
  - `Block`: its nonce and hash are updated in place by `MineBlock`.
  - `Blockchain`: its `chain` and `pendingTransactions` fields are updated in
    place.
  - Each query is a loop proved against its fold in `Chain`.
- `reports.dfy` (`Reports`): the reports of `get_all_lands` and
  `get_blockchain_stats` as functions of the history. Also the shape
  ("one event, then the reward to SYSTEM") that registry operations give
  every block, and what that shape implies.
- `land_registry.dfy` (`Registry`): the `LandRegistry` class. Its
  operations' contracts give:
  - the exact response messages;
  - the block mined;
  - the new owner;
  - that other lands are unaffected;
  - that a refused operation leaves the chain as it was.

  Its invariant `Valid()` holds between calls: nothing pending, difficulty 2,
  reward 100, a valid chain, every mined block of registry shape.
- `system_test.dfy` (`SystemTest`): the run of `test_blockchain_system.py`.
  Every outcome the script checks is derived from the contracts alone, for
  any distinct land ids and non-empty addresses.

Modelling choices:

- The hash (`sha256` of the sorted-key JSON of the five block fields) is a
  function value `Hasher` supplied by the caller and stored in each block and
  ledger. The tamper-detection lemmas assume, as an explicit precondition,
  only that the tampered block's new fields do not collide with its old ones
  under the hash.
- The proof-of-work search terminates only if some nonce meets the target.
  `Mineable(hasher, 2)`, a precondition of the ledger's constructor, states
  that every block can be mined. `MineBlock` needs a solving nonce at or
  above its current one. It finds the first such nonce.
- Clock readings are parameters:
  - `time.time()` for a block's timestamp;
  - `datetime.now().isoformat()` for transaction timestamps and the dates in
    details.

  `Registry.Clock` bundles the readings that one registry operation takes.
- Python truthiness is kept: `if current_owner:` reads a `None` owner and an
  empty address alike as "not registered" (`Registry.Registered`).
  `get_all_lands` skips a missing or empty land id (`Reports.Counted`).
- The genesis block is not mined. `is_chain_valid` never checks it
  (`Chain.GenesisUnchecked`).
- `get_balance` raises a `TypeError` in Python when an amount it must add is
  not an integer. The model returns `None` in that case.

## Model

| member | source | states |
|---|---|---|
| Chain.PrefixTest | blockchain.py:28-29 | the loop test `hash[:difficulty] != "0" * difficulty` fails exactly when the hash starts with `difficulty` zeros, also for hashes shorter than `difficulty` |
| Chain.ChainValidAppend | blockchain.py:139-151 | appending a block to a non-empty chain gives a valid chain iff the chain was valid and the new block holds its own hash and links to the old tip |
| Chain.TamperedBlockDetected | blockchain.py:145-146 | changing the hashed fields of a block after genesis (nonce, transactions, previous hash, ...) while keeping its stored hash makes the chain invalid, unless the new fields hash to the same value as the old ones |
| Chain.RehashedBlockDetected | blockchain.py:148-149 | replacing a block that is neither genesis nor the tip by a re-hashed block with other fields breaks the next block's back-link, unless the new fields hash to the same value as the old ones |
| Chain.GenesisUnchecked | blockchain.py:141 | validity starts at index 1: replacing the genesis block by any block with the same hash keeps a valid chain valid |
| Chain.CurrentOwnerIsLastEvent | blockchain.py:127-137 | the owner is None iff no register/transfer of the land exists; otherwise it is the target of the last one |
| Chain.CurrentOwnerAppend | blockchain.py:131-135 | the owner over a concatenated history is the owner from the later part if it has one, else the owner from the earlier part |
| Chain.TagTxsKeepsTransactions | blockchain.py:158-162 | tagging one block's transactions keeps them all, in order, each tagged with that block's index and hash |
| Chain.TaggedIsAllTxs | blockchain.py:153-164 | the tagged records hold exactly the chain's transactions in block order and then in-block order; their number is the total transaction count; every tag comes from a block of the chain |
| Chain.MatchingTransactions | blockchain.py:116-123 | the history filter keeps exactly the records naming the land, in order, and nothing outside its input |
| Chain.LandHistoryIsFiltered | blockchain.py:112-125 | a land's history holds exactly the chain's transactions naming that land, of any kind, in order |
| Chain.CurrentOwnerOfFiltered | blockchain.py:131-135 | restricting the history to a land's own transactions does not change that land's owner |
| Chain.LastOwnershipRecordOwner | land_registry.py:121-125 | in a history of one land, the last register/transfer record carries the current owner, and there is none exactly when the owner is None |
| Chain.OwnerFromHistory | blockchain.py:112-137 | `get_current_owner` agrees with the last register/transfer record of `get_land_history` |
| Chain.BalanceIsReceivedMinusSent | blockchain.py:98-110 | the balance is the amounts received minus the amounts sent, a missing amount counting 0; it fails iff some transaction touching the address has a non-integer amount |
| Ledger.Block.constructor | blockchain.py:7-13 | a new block stores its four fields and its nonce (0 at every call, the source's default), and the hash of exactly those fields and that nonce |
| Ledger.Block.CalculateHash | blockchain.py:15-24 | the hash is the hash function applied to index, transactions, timestamp, previous hash and nonce, and reads nothing else |
| Ledger.Block.MineBlock | blockchain.py:26-31 | afterwards the stored hash is the block's own hash and starts with `difficulty` zeros; the nonce has not decreased and is the first at or above the old one that meets the target; the other fields are constant |
| Ledger.NewMinedBlock | blockchain.py:85-92 | a fresh block with the given index, transactions, timestamp and previous hash, mined: its stored hash is its own hash and meets the difficulty |
| Ledger.CreateGenesisBlock | blockchain.py:60-62 | a fresh, unmined block: index 0, no transactions, previous hash "0", nonce 0 |
| Ledger.ScanBalance | blockchain.py:103-108 | the inner loop of `get_balance` continues the balance fold from the running total over one block's transactions, failing where the source raises |
| Ledger.Blockchain.constructor | blockchain.py:54-58 | a new ledger holds only the genesis block, nothing is pending, difficulty is 2 and the reward 100; the chain is valid |
| Ledger.Blockchain.LatestBlock | blockchain.py:64-66 | the latest block is a block of the chain, with index length − 1 |
| Ledger.Blockchain.AddTransaction | blockchain.py:68-70 | exactly one transaction is appended to the pending buffer; the chain is untouched |
| Ledger.Blockchain.MinePendingTransactions | blockchain.py:72-96 | the chain grows by one fresh block and earlier blocks are unchanged; the new block has index = old length, the old pending transactions plus the reward (from None, to the reward address, no land, amount 100), previous hash = old tip's hash, and a hash that is its own and meets the difficulty; the buffer is emptied; validity is preserved |
| Ledger.Blockchain.GetBalance | blockchain.py:98-110 | the result is the balance fold over all transactions of the chain |
| Ledger.Blockchain.GetLandHistory | blockchain.py:112-125 | the result is every transaction naming the land, in chain order, tagged with its block's index and hash |
| Ledger.Blockchain.GetCurrentOwner | blockchain.py:127-137 | the result is the target of the last register/transfer of the land, or None |
| Ledger.Blockchain.IsChainValid | blockchain.py:139-151 | true iff every block after genesis holds its own hash and links to its predecessor |
| Ledger.Blockchain.GetAllTransactions | blockchain.py:153-164 | the result is every transaction in chain order, tagged with its block's index and hash |
| Reports.SummaryStep | land_registry.py:141-159 | a register/transfer of a land advances that land's summary as the loop body does: owner := target, count + 1, registration or transfer date taken from the details; any other transaction changes nothing |
| Reports.LandIdsExact | land_registry.py:141-161 | `get_all_lands` lists each non-empty land id with at least one register/transfer exactly once, and no other id |
| Reports.NewLandSummary | land_registry.py:144-151 | a land id not listed yet has no event so far, so its entry starts empty |
| Reports.LandIdsGrow | land_registry.py:139-161 | ids are only appended: the ids of a prefix of the history come first, in the same order (order of first appearance) |
| Reports.SummaryAgreesWithOwner | land_registry.py:153-154 | each listed land's reported owner is `get_current_owner`, and its count is at least 1 |
| Reports.SummaryBeforeEvents | land_registry.py:145-151 | before any register/transfer of a land its summary is the empty entry the loop creates |
| Reports.KindCountsBounded | land_registry.py:179-183 | registrations, transfers and rewards add up to the transaction count, so registrations plus transfers never exceed it |
| Reports.ShapedTotals | land_registry.py:56-58 | on a chain built by the registry every mined block holds two transactions, exactly one a registration or transfer |
| Reports.ShapedLandEvents | blockchain.py:74-81 | on a chain built by the registry every transaction naming a land is a registration or transfer (rewards name none) |
| Reports.ShapedHistoryLength | land_registry.py:132 | on a chain built by the registry the `get_land_info` count (all records) equals the `get_all_lands` count (register/transfer events) |
| Reports.ShapedSystemBalance | blockchain.py:98-110 | on a chain built by the registry SYSTEM's balance is 100 per mined block |
| Registry.OwnershipEventEffect | blockchain.py:127-137 | a block with one register/transfer of a land and then a transaction naming no land makes its target the land's owner and leaves every other land's owner unchanged |
| Registry.HistoryAfterEvent | blockchain.py:112-125 | the same block adds exactly one record, its event tagged with the block, to that land's history, and none to any other land's |
| Registry.EventBlockShaped | land_registry.py:56-58 | the block a registry operation mines has the registry shape |
| Registry.LatestDetails | land_registry.py:119-125 | the reverse scan with `break` yields the details of the last register/transfer record, `{}` when there is none |
| Registry.TableStep | land_registry.py:141-159 | one iteration of the `get_all_lands` loop keeps the dict equal to the summaries of the history read so far, and keeps its keys in insertion order |
| Registry.SummarizeLands | land_registry.py:139-161 | the loop's result is the summary of every listed land in order of first appearance |
| Registry.CountEvents | land_registry.py:179-183 | the counters are the numbers of registrations and of transfers |
| Registry.LandRegistry.constructor | land_registry.py:7-10 | a new registry owns a fresh ledger holding only the genesis block, and its invariant holds |
| Registry.LandRegistry.RegisterLand | land_registry.py:33-65 | refused with "Land X is already registered to O" while the land has a non-empty owner, chain unchanged; otherwise exactly one block is mined holding the registration (from SYSTEM, to the owner address, with owner name, land details and date) and the reward to SYSTEM, the response carries "Land X successfully registered to N" and that block's hash, the land belongs to the owner address, and every other land's owner is unchanged; the invariant is kept |
| Registry.LandRegistry.TransferLand | land_registry.py:67-106 | refused with "Land X is not registered" when the land has no non-empty owner, and with "Only the current owner (O) can transfer this land" when the sender is not the owner, chain unchanged in both cases; otherwise exactly one block is mined holding the transfer and the reward, the response carries "Land X successfully transferred to N" and the block's hash, the land belongs to the new owner, and every other land is unchanged |
| Registry.LandRegistry.MineEvent | land_registry.py:56-64 | queuing one event and mining it appends one block with that event and the reward to SYSTEM, returns its hash, and makes the event's target the land's owner, other lands unchanged |
| Registry.LandRegistry.GetLandInfo | land_registry.py:108-134 | NotFound with "Land X is not registered" iff the land has no non-empty owner; otherwise the owner, the whole history, its length, and the details of the last register/transfer record, whose target is the owner |
| Registry.LandRegistry.GetAllLands | land_registry.py:136-161 | the result is one summary per listed land, in order of first appearance |
| Registry.LandRegistry.VerifyBlockchainIntegrity | land_registry.py:163-165 | the result is the ledger's validity check, and it is true on every chain the registry builds |
| Registry.LandRegistry.GetBlockchainStats | land_registry.py:167-185 | blocks, transactions, registrations, transfers and validity as defined; on a registry chain the chain is valid, transactions = 2 × (blocks − 1), and registrations + transfers = blocks − 1 |
| SystemTest.Open | test_blockchain_system.py:15-16 | a fresh registry has one block and no land has an owner or a history |
| SystemTest.RegisterFirst | test_blockchain_system.py:18-38 | the first registration succeeds and the land belongs to its owner with one history record |
| SystemTest.RegisterSecond | test_blockchain_system.py:40-59 | registering a second land succeeds and leaves the first land as it was |
| SystemTest.TransferSold | test_blockchain_system.py:61-79 | the transfer by the current owner succeeds; the land belongs to the buyer with two history records |
| SystemTest.Inspect | test_blockchain_system.py:81-120 | land info reports the buyer and two records; the chain is valid; the statistics count 4 blocks, 6 transactions and 3 registrations or transfers |
| SystemTest.Refuse | test_blockchain_system.py:122-151 | re-registering the sold land and transferring an unknown land are refused with the source's messages |
| SystemTest.Build | test_blockchain_system.py:15-79 | the three mutating steps on a fresh registry all succeed, leaving four blocks |
| SystemTest.EndToEnd | test_blockchain_system.py:10-163 | every outcome the script checks, except the listing of test 5, follows from the contracts |

## Left out

- Hashing: SHA-256 over `json.dumps(sort_keys=True)` is a caller-supplied function (`Hasher`). Encoding failures of unserialisable values are not modelled.
- Ledger.Block.MineBlock: termination is a precondition (a solving nonce exists at or above the current one), because an unbounded search cannot be proved to end.
- Clocks: `time.time()` and `datetime.now().isoformat()` readings are parameters, not reads of a clock.
- File persistence: `load_blockchain` is a no-op, `save_blockchain` writes a file, and `Blockchain.to_dict` is the JSON form that file uses. They are I/O and are not modelled; a failed save never affects the in-memory result.
- `print` output of `mine_block` and `mine_pending_transactions`.
- Transaction.to_dict: the `Chain.Tx` datatype is both the transaction object and its dict form. `details or {}` is an empty map. There is no separate member.
- Ledger.Blockchain.GetBalance: amounts are integers or absent. Python's `bool` and `float` amounts, which it would add, have no `Chain.Value` variant and are not modelled.
- Land ids and addresses are strings. Queries with a `None` land id or address, which in Python would match reward transactions, are not modelled.
- Aliasing: in Python the dicts in pending, in blocks and in returned histories are shared objects. The model uses values, so a caller mutating a returned dict is not modelled.
- SystemTest.EndToEnd: the `get_all_lands` listing of test 5 is not part of the scenario. `Registry.LandRegistry.GetAllLands` and the `Reports` lemmas cover it generally.
- `app.py`, `start_server.py` and `script.js` (web routes, server start-up, browser UI) are not part of this model.
