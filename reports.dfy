/**
 * The reports land_registry.py derives from the ledger's history
 * (get_all_lands, get_blockchain_stats), the shape its operations give every
 * block, and what that shape implies for the ledger's queries.
 */
module Reports {

  import opened Wrappers
  import opened Chain

  // ---------------------------------------------------------------------------
  // get_all_lands

  /** `land_id and transaction_type in ['register', 'transfer']`: a missing or empty land id is skipped. */
  predicate Counted(t: Tx)
  {
    t.landId.Some? && t.landId.value != "" && IsOwnership(t.kind)
  }

  /** The land ids `get_all_lands` reports, in order of first appearance. */
  function LandIds(txs: seq<Tx>): seq<string>
  {
    if txs == [] then []
    else
      var ids := LandIds(txs[..|txs| - 1]);
      var t := txs[|txs| - 1];
      if Counted(t) && t.landId.value !in ids then ids + [t.landId.value] else ids
  }

  /** The number of register/transfer events of land `id`. */
  function OwnershipCount(txs: seq<Tx>, id: string): nat
  {
    if txs == [] then 0
    else OwnershipCount(txs[..|txs| - 1], id) + (if IsOwnershipOf(txs[|txs| - 1], id) then 1 else 0)
  }

  /** `details.get(key)` of the last `kind` event of land `id`; Null when there is none. */
  function LastDate(txs: seq<Tx>, id: string, kind: TxKind, key: string): Value
  {
    if txs == [] then Null
    else
      var t := txs[|txs| - 1];
      if t.landId == Some(id) && t.kind == kind then Lookup(t.details, key)
      else LastDate(txs[..|txs| - 1], id, kind, key)
  }

  datatype LandSummary = LandSummary(landId: string, currentOwner: string, registrationDate: Value,
                                     lastTransferDate: Value, transactionCount: nat)

  /** What `get_all_lands` reports about one land, each field by its own query over the history. */
  function Summary(txs: seq<Tx>, id: string): LandSummary
  {
    LandSummary(id,
                match CurrentOwner(txs, id) case Some(o) => o case None => "",
                LastDate(txs, id, Register, "registration_date"),
                LastDate(txs, id, Transfer, "transfer_date"),
                OwnershipCount(txs, id))
  }

  /** `get_all_lands`: one summary per reported land id, in order of first appearance. */
  function Summaries(txs: seq<Tx>): seq<LandSummary>
  {
    var ids := LandIds(txs);
    seq(|ids|, k requires 0 <= k < |ids| => Summary(txs, ids[k]))
  }

  /** The summary a land has before any event of it. */
  function EmptySummary(id: string): LandSummary
  {
    LandSummary(id, "", Null, Null, 0)
  }

  /** What one register/transfer event does to its land's entry in `get_all_lands`. */
  function Advance(e: LandSummary, t: Tx): LandSummary
  {
    e.(currentOwner := t.toAddress,
       registrationDate := if t.kind == Register then Lookup(t.details, "registration_date") else e.registrationDate,
       lastTransferDate := if t.kind == Transfer then Lookup(t.details, "transfer_date") else e.lastTransferDate,
       transactionCount := e.transactionCount + 1)
  }

  /** One more event advances the summary of its own land; other lands keep theirs. */
  lemma SummaryStep(s: seq<Tx>, t: Tx, id: string)
    ensures Summary(s + [t], id) == if IsOwnershipOf(t, id) then Advance(Summary(s, id), t) else Summary(s, id)
  {
    assert (s + [t])[..|s|] == s;
  }

  lemma LandIdsStep(s: seq<Tx>, t: Tx)
    ensures LandIds(s + [t]) == if Counted(t) && t.landId.value !in LandIds(s) then LandIds(s) + [t.landId.value] else LandIds(s)
  {
    assert (s + [t])[..|s|] == s;
  }

  /**
   * `get_all_lands` lists each land id with at least one register/transfer
   * event exactly once (the empty id excepted), and never another.
   */
  lemma {:induction false} LandIdsExact(txs: seq<Tx>)
    ensures forall p, q :: 0 <= p < q < |LandIds(txs)| ==> LandIds(txs)[p] != LandIds(txs)[q]
    ensures forall id :: id in LandIds(txs) <==> id != "" && exists k :: 0 <= k < |txs| && IsOwnershipOf(txs[k], id)
  {
    if txs != [] {
      var n := |txs| - 1;
      LandIdsExact(txs[..n]);
      forall id ensures id in LandIds(txs) <==> id != "" && exists k :: 0 <= k < |txs| && IsOwnershipOf(txs[k], id) {
        if id != "" && exists k :: 0 <= k < |txs| && IsOwnershipOf(txs[k], id) {
          var k :| 0 <= k < |txs| && IsOwnershipOf(txs[k], id);
          if k < n {
            assert txs[..n][k] == txs[k];
          }
        }
        if id in LandIds(txs[..n]) {
          var k :| 0 <= k < n && IsOwnershipOf(txs[..n][k], id);
          assert txs[k] == txs[..n][k];
        }
      }
    }
  }

  /** A land id not reported yet has had no register/transfer event, so its summary is the empty one. */
  lemma NewLandSummary(txs: seq<Tx>, id: string)
    requires id != "" && id !in LandIds(txs)
    ensures Summary(txs, id) == EmptySummary(id)
  {
    LandIdsExact(txs);
    SummaryBeforeEvents(txs, id);
  }

  /** Ids are only ever appended: the ids seen in a prefix of the history come first, in the same order. */
  lemma {:induction false} LandIdsGrow(txs: seq<Tx>, k: nat)
    requires k <= |txs|
    ensures LandIds(txs[..k]) <= LandIds(txs)
  {
    if k < |txs| {
      var n := |txs| - 1;
      assert txs[..n][..k] == txs[..k];
      LandIdsGrow(txs[..n], k);
    } else {
      assert txs[..k] == txs;
    }
  }

  /** Each summary's owner is the ledger's current owner, and it counts at least one event. */
  lemma SummaryAgreesWithOwner(txs: seq<Tx>, id: string)
    requires id in LandIds(txs)
    ensures CurrentOwner(txs, id) == Some(Summary(txs, id).currentOwner)
    ensures Summary(txs, id).transactionCount >= 1
  {
    LandIdsExact(txs);
    CurrentOwnerIsLastEvent(txs, id);
    var k :| 0 <= k < |txs| && IsOwnershipOf(txs[k], id);
    OwnershipCountPositive(txs, id, k);
  }

  /** Before any register/transfer of a land its summary is the empty one `get_all_lands` starts from. */
  lemma {:induction false} SummaryBeforeEvents(txs: seq<Tx>, id: string)
    requires forall k :: 0 <= k < |txs| ==> !IsOwnershipOf(txs[k], id)
    ensures Summary(txs, id) == EmptySummary(id)
  {
    if txs != [] {
      var n := |txs| - 1;
      assert forall k :: 0 <= k < n ==> txs[..n][k] == txs[k];
      SummaryBeforeEvents(txs[..n], id);
    }
  }

  lemma {:induction false} OwnershipCountPositive(txs: seq<Tx>, id: string, k: nat)
    requires k < |txs| && IsOwnershipOf(txs[k], id)
    ensures OwnershipCount(txs, id) >= 1
  {
    var n := |txs| - 1;
    if k < n {
      assert txs[..n][k] == txs[k];
      OwnershipCountPositive(txs[..n], id, k);
    }
  }

  // ---------------------------------------------------------------------------
  // get_blockchain_stats

  /** The number of transactions of one kind. */
  function CountKind(txs: seq<Tx>, kind: TxKind): nat
  {
    if txs == [] then 0
    else CountKind(txs[..|txs| - 1], kind) + (if txs[|txs| - 1].kind == kind then 1 else 0)
  }

  lemma CountKindStep(s: seq<Tx>, t: Tx, kind: TxKind)
    ensures CountKind(s + [t], kind) == CountKind(s, kind) + (if t.kind == kind then 1 else 0)
  {
    assert (s + [t])[..|s|] == s;
  }

  /** Registrations and transfers together never exceed the transaction count. */
  lemma {:induction false} KindCountsBounded(txs: seq<Tx>)
    ensures CountKind(txs, Register) + CountKind(txs, Transfer) + CountKind(txs, MiningReward) == |txs|
    ensures CountKind(txs, Register) + CountKind(txs, Transfer) <= |txs|
  {
    if txs != [] {
      KindCountsBounded(txs[..|txs| - 1]);
    }
  }

  // ---------------------------------------------------------------------------
  // The shape the registry gives the chain

  /** A block the registry mines: one register/transfer event naming a land, then the reward to SYSTEM. */
  predicate RegistryBlock(b: BlockData)
  {
    |b.transactions| == 2 &&
    IsOwnership(b.transactions[0].kind) && b.transactions[0].landId.Some? && "amount" !in b.transactions[0].details &&
    b.transactions[1].fromAddress == None && b.transactions[1].toAddress == "SYSTEM" &&
    b.transactions[1].landId == None && b.transactions[1].kind == MiningReward &&
    b.transactions[1].details == map["amount" := Int(100)]
  }

  /** An empty genesis followed by registry blocks only. */
  predicate RegistryShaped(v: seq<BlockData>)
  {
    |v| >= 1 && v[0].transactions == [] && forall i :: 1 <= i < |v| ==> RegistryBlock(v[i])
  }

  /** Mining one more registry block keeps the chain registry-shaped. */
  lemma ShapedAppend(v: seq<BlockData>, b: BlockData)
    requires RegistryShaped(v) && RegistryBlock(b)
    ensures RegistryShaped(v + [b])
  {
    forall i | 1 <= i < |v| + 1 ensures RegistryBlock((v + [b])[i]) {
      if i < |v| {
        assert (v + [b])[i] == v[i];
      }
    }
  }

  lemma ShapedPrefix(v: seq<BlockData>)
    requires RegistryShaped(v) && |v| >= 2
    ensures RegistryShaped(v[..|v| - 1]) && AllTxs(v) == AllTxs(v[..|v| - 1]) + v[|v| - 1].transactions
  {
    var w := v[..|v| - 1];
    forall i | 1 <= i < |w| ensures RegistryBlock(w[i]) {
      assert w[i] == v[i];
    }
  }

  /** A registry-built chain holds two transactions per mined block, exactly one of them a registration or transfer. */
  lemma {:induction false} ShapedTotals(v: seq<BlockData>)
    requires RegistryShaped(v)
    ensures |AllTxs(v)| == 2 * (|v| - 1)
    ensures CountKind(AllTxs(v), Register) + CountKind(AllTxs(v), Transfer) == |v| - 1
  {
    if |v| == 1 {
      assert AllTxs(v) == AllTxs(v[..0]) + v[0].transactions;
    } else {
      var n := |v| - 1;
      ShapedPrefix(v);
      ShapedTotals(v[..n]);
      var s := AllTxs(v[..n]);
      var t := v[n].transactions;
      assert AllTxs(v) == (s + [t[0]]) + [t[1]];
      assert (s + [t[0]] + [t[1]])[..|s| + 1] == s + [t[0]];
      assert (s + [t[0]])[..|s|] == s;
    }
  }

  /** Every event that names a land is a registration or transfer. */
  predicate LandEventsAreOwnership(txs: seq<Tx>)
  {
    forall k :: 0 <= k < |txs| && txs[k].landId.Some? ==> IsOwnership(txs[k].kind)
  }

  lemma {:induction false} ShapedLandEvents(v: seq<BlockData>)
    requires RegistryShaped(v)
    ensures LandEventsAreOwnership(AllTxs(v))
  {
    if |v| == 1 {
      assert AllTxs(v) == AllTxs(v[..0]) + v[0].transactions;
    } else {
      var n := |v| - 1;
      ShapedPrefix(v);
      ShapedLandEvents(v[..n]);
      var s := AllTxs(v[..n]);
      forall k | 0 <= k < |AllTxs(v)| && AllTxs(v)[k].landId.Some? ensures IsOwnership(AllTxs(v)[k].kind) {
        if k < |s| {
          assert AllTxs(v)[k] == s[k];
        } else {
          assert AllTxs(v)[k] == v[n].transactions[k - |s|];
        }
      }
    }
  }

  lemma {:induction false} FilteredCount(txs: seq<Tx>, id: string)
    requires LandEventsAreOwnership(txs)
    ensures |WithLandId(txs, id)| == OwnershipCount(txs, id)
  {
    if txs != [] {
      var n := |txs| - 1;
      assert LandEventsAreOwnership(txs[..n]) by {
        forall k | 0 <= k < n && txs[..n][k].landId.Some? ensures IsOwnership(txs[..n][k].kind) {
          assert txs[..n][k] == txs[k];
        }
      }
      FilteredCount(txs[..n], id);
    }
  }

  /** On a registry-built chain a land's history holds exactly its registrations and transfers. */
  lemma ShapedHistoryLength(v: seq<BlockData>, id: string)
    requires RegistryShaped(v)
    ensures |LandHistory(v, id)| == OwnershipCount(AllTxs(v), id)
  {
    LandHistoryIsFiltered(v, id);
    ShapedLandEvents(v);
    FilteredCount(AllTxs(v), id);
  }

  /** On a registry-built chain SYSTEM holds the rewards of every mined block and nothing else. */
  lemma {:induction false} ShapedSystemBalance(v: seq<BlockData>)
    requires RegistryShaped(v)
    ensures Balance(AllTxs(v), "SYSTEM") == Some(100 * (|v| - 1))
  {
    if |v| == 1 {
      assert AllTxs(v) == AllTxs(v[..0]) + v[0].transactions;
    } else {
      var n := |v| - 1;
      ShapedPrefix(v);
      ShapedSystemBalance(v[..n]);
      var s := AllTxs(v[..n]);
      var t := v[n].transactions;
      assert AllTxs(v) == (s + [t[0]]) + [t[1]];
      BalanceStep(s, t[0], "SYSTEM", 100 * (n - 1));
      BalanceStep(s + [t[0]], t[1], "SYSTEM", 100 * (n - 1));
    }
  }
}
