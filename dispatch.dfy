/**
 * The message-dispatch decisions of PeerSync: what each inbound peer message
 * (inv, tx, ix, block) and each storage completion makes the node do.
 *
 * Every handler is a pure function that returns the side effects it would
 * perform, in order, as a sequence of `Effect` values. The storage calls
 * `storeTx` and `storeTipBlock` are effects too; their completion callbacks
 * are separate functions whose inputs are the storage outcome, the
 * `shouldBroadcast` flag and whether a historic-sync collaborator is attached.
 * Hashing (`calcHash`) and hash formatting (`formatHashFull`) are library
 * calls whose results the model does not interpret; they come in as
 * function parameters.
 */
module Dispatch {
  import opened Wrappers
  import opened Seqs

  type Hash = seq<bv8>

  /** One inventory item announced by an `inv` message. */
  datatype Inventory = Inventory(invType: nat, hash: Hash)

  /** The tag the transaction is broadcast with: `'tx'` or `'ix'` (instant transaction). */
  datatype TxType = Tx | IX

  /**
   * A transaction as the storage layer standardizes it. `time` is `None` when
   * the field is undefined; `fields` stands for everything else in the record,
   * which the handler passes on untouched.
   */
  datatype StandardTx = StandardTx(txid: string, time: Option<int>, fields: seq<bv8>)

  /** One own property of the `relatedAddrs` object returned by `storeTx`. */
  datatype AddrEntry = AddrEntry(key: string, value: string)

  /**
   * What `storeTx` reports to its callback: a truthy error (rendered as a
   * string), or success with the related-addresses object, `None` when it is
   * falsy; its properties are listed in for..in enumeration order.
   */
  datatype TxOutcome = TxFailed(err: string) | TxStored(relatedAddrs: Option<seq<AddrEntry>>)

  datatype RawTx = RawTx(hash: Hash)

  /** A block message: its header (hashed by the library) and its transactions. */
  datatype RawBlock = RawBlock(header: seq<bv8>, prevHash: Hash, txs: seq<RawTx>)

  /** The descriptor handed to `storeTipBlock`. */
  datatype TipBlock = TipBlock(hash: string, tx: seq<string>, previousblockhash: string)

  /** What `storeTipBlock` reports to its callback: an error with its message, or the new height. */
  datatype BlockOutcome = BlockFailed(message: string) | BlockStored(height: int)

  /** The lines `log` is asked to print (printed only when `verbose` is set). */
  datatype LogLine =
    | HandlingTx(txid: string)
    | TxError(err: string)
    | HandlingBlock(hash: string, allowReorgs: bool)
    | OrphanBlock
    | BlockError(message: string)
    | ResyncDone

  /**
   * The side effects of the handlers. `StoreTx` is the call `storeTx(tx, callback)`:
   * the storage layer receives only `tx`; `callbackTag` is the `'tx'`/`'ix'` tag
   * that the callback closure captures and later broadcasts with.
   */
  datatype Effect =
    | GetData(invs: seq<Inventory>)                      // conn.sendGetData
    | StoreTx(tx: StandardTx, callbackTag: TxType)       // sync.storeTx
    | StoreTipBlock(tip: TipBlock, allowReorgs: bool)    // sync.storeTipBlock
    | BroadcastTx(btx: StandardTx, kind: TxType)         // sockets.broadcastTx
    | BroadcastAddr(txid: string, addr: string)          // sockets.broadcastAddressTx
    | BroadcastBlock(blockHash: string)                  // sockets.broadcastBlock
    | HistoricStart(forceRPC: int)                       // historicSync.start
    | Log(line: LogLine)

  /** The marker a storage error carries when the block does not extend a known tip. */
  const NeedSyncMarker: string := "NEED_SYNC"

  /** The option value `historicSync.start` is called with: `{forceRPC: 1}`. */
  const ForceRpc: int := 1

  // ---------------------------------------------------------------------------
  // inv

  /** `handleInv`: ask the announcing connection for every announced item, as announced. */
  function HandleInv(invs: seq<Inventory>): (r: seq<Effect>)
    ensures |r| == 1 && r[0].GetData? && r[0].invs == invs
  {
    [GetData(invs)]
  }

  // ---------------------------------------------------------------------------
  // tx and ix

  /** JavaScript truthiness of `tx.time`: undefined and 0 are both falsy. */
  predicate HasTime(time: Option<int>)
  {
    time.Some? && time.value != 0
  }

  /** `Math.round(nowMs / 1000)`: the whole second nearest to `nowMs`, halves rounded up. */
  function RoundToSeconds(nowMs: int): (secs: int)
    ensures secs * 1000 - 500 <= nowMs < secs * 1000 + 500
  {
    (nowMs + 500) / 1000
  }

  /** `tx.time || Math.round(Date.now() / 1000)`, with the clock reading passed in. */
  function TxTime(time: Option<int>, nowMs: int): (t: int)
    ensures HasTime(time) ==> t == time.value
    ensures !HasTime(time) ==> t * 1000 - 500 <= nowMs < t * 1000 + 500
  {
    if HasTime(time) then time.value else RoundToSeconds(nowMs)
  }

  /**
   * `_handleTx` up to the storage call: log the txid, default the time, and
   * hand the transaction to `storeTx`.
   */
  function HandleTxMessage(std: StandardTx, txType: TxType, nowMs: int): (r: seq<Effect>)
    ensures |r| == 2 && r[0] == Log(HandlingTx(std.txid))
    ensures r[1].StoreTx? && r[1].callbackTag == txType
    ensures r[1].tx.txid == std.txid && r[1].tx.fields == std.fields
    ensures HasTime(std.time) ==> r[1].tx.time == std.time
    ensures !HasTime(std.time) ==> r[1].tx.time == Some(RoundToSeconds(nowMs))
  {
    [Log(HandlingTx(std.txid)), StoreTx(std.(time := Some(TxTime(std.time, nowMs))), txType)]
  }

  /** `handleTx`: a plain transaction, tagged `'tx'`. */
  function HandleTx(std: StandardTx, nowMs: int): (r: seq<Effect>)
    ensures |r| == 2 && r[1].StoreTx? && r[1].callbackTag == Tx
  {
    HandleTxMessage(std, Tx, nowMs)
  }

  /** `handleIX`: an instant transaction, tagged `'ix'`. */
  function HandleIX(std: StandardTx, nowMs: int): (r: seq<Effect>)
    ensures |r| == 2 && r[1].StoreTx? && r[1].callbackTag == IX
  {
    HandleTxMessage(std, IX, nowMs)
  }

  /** A tx and an ix message are handled alike; only the tag differs. */
  lemma TxAndIxDifferOnlyInTag(std: StandardTx, nowMs: int)
    ensures HandleTx(std, nowMs)[0] == HandleIX(std, nowMs)[0]
    ensures HandleTx(std, nowMs)[1].tx == HandleIX(std, nowMs)[1].tx
    ensures HandleTx(std, nowMs)[1].callbackTag != HandleIX(std, nowMs)[1].callbackTag
  {
  }

  /** The for..in loop of `_broadcastAddr`: one address broadcast per property key. */
  function AddrEffects(txid: string, entries: seq<AddrEntry>): (r: seq<Effect>)
    ensures |r| == |entries|
    ensures forall i :: 0 <= i < |r| ==> r[i] == BroadcastAddr(txid, entries[i].key)
  {
    if entries == [] then [] else [BroadcastAddr(txid, entries[0].key)] + AddrEffects(txid, entries[1..])
  }

  /** `_broadcastAddr`: nothing when `addrs` is falsy, otherwise one broadcast per key. */
  function BroadcastAddrs(txid: string, addrs: Option<seq<AddrEntry>>): (r: seq<Effect>)
    ensures addrs.None? ==> r == []
    ensures addrs.Some? ==> |r| == |addrs.value|
    ensures forall e | e in r :: e.BroadcastAddr? && e.txid == txid
  {
    match addrs
    case None => []
    case Some(entries) => AddrEffects(txid, entries)
  }

  /** The `storeTx` callback of `_handleTx`. */
  function OnTxStored(tx: StandardTx, txType: TxType, outcome: TxOutcome, shouldBroadcast: bool): (r: seq<Effect>)
    ensures outcome.TxFailed? ==> forall e | e in r :: e.Log?
    ensures outcome.TxStored? && !shouldBroadcast ==> r == []
    ensures outcome.TxStored? && shouldBroadcast ==>
      |r| >= 1 && r[0] == BroadcastTx(tx, txType) && r[1..] == BroadcastAddrs(tx.txid, outcome.relatedAddrs)
  {
    match outcome
    case TxFailed(err) => [Log(TxError(err))]
    case TxStored(related) =>
      if shouldBroadcast then [BroadcastTx(tx, txType)] + BroadcastAddrs(tx.txid, related) else []
  }

  /**
   * The broadcast counts of a stored transaction: exactly one transaction
   * broadcast, first, then one address broadcast per related address, each
   * carrying the txid and the address key; nothing at all on an error or
   * without `shouldBroadcast`.
   */
  lemma {:induction false} TxBroadcastCounts(tx: StandardTx, txType: TxType, outcome: TxOutcome, shouldBroadcast: bool)
    ensures var r := OnTxStored(tx, txType, outcome, shouldBroadcast);
      if outcome.TxStored? && shouldBroadcast then
        Count(r, BroadcastTx(tx, txType)) == 1
        && (forall i :: 1 <= i < |r| ==> r[i].BroadcastAddr? && r[i].txid == tx.txid
                                         && r[i].addr == outcome.relatedAddrs.value[i - 1].key)
        && |r| == 1 + (if outcome.relatedAddrs.Some? then |outcome.relatedAddrs.value| else 0)
      else
        forall e | e in r :: !e.BroadcastTx? && !e.BroadcastAddr?
  {
    var r := OnTxStored(tx, txType, outcome, shouldBroadcast);
    if outcome.TxStored? && shouldBroadcast {
      var rest := BroadcastAddrs(tx.txid, outcome.relatedAddrs);
      assert r == [BroadcastTx(tx, txType)] + rest;
      CountConcat([BroadcastTx(tx, txType)], rest, BroadcastTx(tx, txType));
      assert BroadcastTx(tx, txType) !in rest;
      assert Count([BroadcastTx(tx, txType)], BroadcastTx(tx, txType)) == 1;
      if outcome.relatedAddrs.Some? {
        forall i | 1 <= i < |r|
          ensures r[i].BroadcastAddr? && r[i].txid == tx.txid && r[i].addr == outcome.relatedAddrs.value[i - 1].key
        {
          assert r[i] == rest[i - 1];
        }
      }
    }
  }

  /**
   * A tx or ix message from arrival to the `storeTx` callback: the callback
   * closes over the very object `_handleTx` stored, time default included.
   */
  function TxFlow(std: StandardTx, txType: TxType, nowMs: int, outcome: TxOutcome, shouldBroadcast: bool)
    : (r: seq<Effect>)
    ensures var stored := std.(time := Some(TxTime(std.time, nowMs)));
      && |r| >= 2 && r[0] == Log(HandlingTx(std.txid)) && r[1] == StoreTx(stored, txType)
      && (outcome.TxFailed? ==> |r| == 3 && r[2].Log?)
      && (outcome.TxStored? && !shouldBroadcast ==> |r| == 2)
      && (outcome.TxStored? && shouldBroadcast ==>
            |r| >= 3 && r[2] == BroadcastTx(stored, txType) && r[3..] == BroadcastAddrs(std.txid, outcome.relatedAddrs))
  {
    var handled := HandleTxMessage(std, txType, nowMs);
    handled + OnTxStored(handled[1].tx, txType, outcome, shouldBroadcast)
  }

  /**
   * The transaction that is broadcast is the one that was stored, with its
   * time defaulted, under the message's tag; it is broadcast once after a
   * successful store with broadcasting on, and never otherwise.
   */
  lemma {:induction false} TxFlowBroadcastsStoredTx(std: StandardTx, txType: TxType, nowMs: int, outcome: TxOutcome, shouldBroadcast: bool)
    ensures var stored := std.(time := Some(TxTime(std.time, nowMs)));
      var r := TxFlow(std, txType, nowMs, outcome, shouldBroadcast);
      && r[1] == StoreTx(stored, txType)
      && (forall e | e in r && e.BroadcastTx? :: e == BroadcastTx(stored, txType))
      && Count(r, BroadcastTx(stored, txType)) == (if outcome.TxStored? && shouldBroadcast then 1 else 0)
  {
    var stored := std.(time := Some(TxTime(std.time, nowMs)));
    var handled := HandleTxMessage(std, txType, nowMs);
    var after := OnTxStored(stored, txType, outcome, shouldBroadcast);
    assert handled[1].tx == stored;
    TxBroadcastCounts(stored, txType, outcome, shouldBroadcast);
    CountConcat(handled, after, BroadcastTx(stored, txType));
    assert BroadcastTx(stored, txType) !in handled;
    if !(outcome.TxStored? && shouldBroadcast) {
      assert BroadcastTx(stored, txType) !in after;
    } else {
      forall e | e in after && e.BroadcastTx? ensures e == BroadcastTx(stored, txType) {
        var k :| 0 <= k < |after| && after[k] == e;
        if k > 0 { assert after[1..][k - 1] == e; }
      }
    }
  }

  // ---------------------------------------------------------------------------
  // block

  /** The `tx_hashes` map of `handleBlock`: the formatted hash of each transaction, in order. */
  function TxHashes(txs: seq<RawTx>, formatHash: Hash -> string): (r: seq<string>)
    ensures |r| == |txs|
    ensures forall i :: 0 <= i < |r| ==> r[i] == formatHash(txs[i].hash)
  {
    if txs == [] then [] else [formatHash(txs[0].hash)] + TxHashes(txs[1..], formatHash)
  }

  /**
   * `handleBlock` up to the storage call: log the block hash, build the tip
   * descriptor and hand it to `storeTipBlock` with the `allowReorgs` flag.
   */
  function HandleBlock(block: RawBlock, calcHash: RawBlock -> Hash, formatHash: Hash -> string, allowReorgs: bool)
    : (r: seq<Effect>)
    ensures |r| == 2 && r[0] == Log(HandlingBlock(formatHash(calcHash(block)), allowReorgs))
    ensures r[1].StoreTipBlock? && r[1].allowReorgs == allowReorgs
    ensures r[1].tip.hash == formatHash(calcHash(block))
    ensures r[1].tip.previousblockhash == formatHash(block.prevHash)
    ensures |r[1].tip.tx| == |block.txs|
    ensures forall i :: 0 <= i < |block.txs| ==> r[1].tip.tx[i] == formatHash(block.txs[i].hash)
  {
    var blockHash := formatHash(calcHash(block));
    [Log(HandlingBlock(blockHash, allowReorgs)),
     StoreTipBlock(TipBlock(blockHash, TxHashes(block.txs, formatHash), formatHash(block.prevHash)), allowReorgs)]
  }

  /** `pat` occurs in `s` starting at index `i`. */
  ghost predicate OccursAt(s: string, pat: string, i: int)
  {
    0 <= i && i + |pat| <= |s| && s[i..i + |pat|] == pat
  }

  /** The unanchored match `s.match(/pat/)` for a pattern without special characters. */
  function Contains(s: string, pat: string): (b: bool)
    decreases |s|
  {
    if |pat| > |s| then false
    else if s[..|pat|] == pat then true
    else Contains(s[1..], pat)
  }

  /** `Contains` is exactly substring occurrence, in both directions. */
  lemma {:induction false} ContainsIffOccurs(s: string, pat: string)
    ensures Contains(s, pat) <==> exists i :: OccursAt(s, pat, i)
    decreases |s|
  {
    if |pat| > |s| {
    } else if s[..|pat|] == pat {
      assert OccursAt(s, pat, 0);
    } else {
      ContainsIffOccurs(s[1..], pat);
      if exists i :: OccursAt(s[1..], pat, i) {
        var i :| OccursAt(s[1..], pat, i);
        assert s[1..][i..i + |pat|] == s[i + 1..i + 1 + |pat|];
        assert OccursAt(s, pat, i + 1);
      }
      if exists i :: OccursAt(s, pat, i) {
        var i :| OccursAt(s, pat, i);
        assert i != 0;
        assert s[1..][i - 1..i - 1 + |pat|] == s[i..i + |pat|];
        assert OccursAt(s[1..], pat, i - 1);
      }
    }
  }

  /** The orphan test of the `storeTipBlock` callback: `err.message.match(/NEED_SYNC/)`. */
  function NeedsSync(message: string): (b: bool)
    ensures b <==> exists i :: OccursAt(message, NeedSyncMarker, i)
  {
    ContainsIffOccurs(message, NeedSyncMarker);
    Contains(message, NeedSyncMarker)
  }

  /** The `storeTipBlock` callback of `handleBlock`. */
  function OnTipBlockStored(blockHash: string, outcome: BlockOutcome, historicSyncSet: bool, shouldBroadcast: bool)
    : (r: seq<Effect>)
    ensures (HistoricStart(ForceRpc) in r) <==> outcome.BlockFailed? && NeedsSync(outcome.message) && historicSyncSet
    ensures Count(r, HistoricStart(ForceRpc)) <= 1
    ensures (BroadcastBlock(blockHash) in r) <==> outcome.BlockStored? && shouldBroadcast
    ensures forall e | e in r :: e.Log? || e == HistoricStart(ForceRpc) || e == BroadcastBlock(blockHash)
  {
    match outcome
    case BlockFailed(message) =>
      if NeedsSync(message) && historicSyncSet then [Log(OrphanBlock), HistoricStart(ForceRpc)]
      else [Log(BlockError(message))]
    case BlockStored(_) =>
      if shouldBroadcast then [BroadcastBlock(blockHash)] else []
  }

  /**
   * Resynchronisation is triggered exactly when the storage error message
   * contains NEED_SYNC and a historic-sync collaborator is attached, and
   * then exactly once per error; any other outcome never triggers it.
   */
  lemma ResyncIffNeedSync(blockHash: string, outcome: BlockOutcome, historicSyncSet: bool, shouldBroadcast: bool)
    ensures var r := OnTipBlockStored(blockHash, outcome, historicSyncSet, shouldBroadcast);
      && ((exists e | e in r :: e.HistoricStart?) <==>
          outcome.BlockFailed? && historicSyncSet && exists i :: OccursAt(outcome.message, NeedSyncMarker, i))
      && Count(r, HistoricStart(ForceRpc)) == (if HistoricStart(ForceRpc) in r then 1 else 0)
  {
  }

  /**
   * A stored block is broadcast exactly once when broadcasting is on, and no
   * address broadcast ever follows a block.
   */
  lemma BlockBroadcastOnce(blockHash: string, outcome: BlockOutcome, historicSyncSet: bool, shouldBroadcast: bool)
    ensures var r := OnTipBlockStored(blockHash, outcome, historicSyncSet, shouldBroadcast);
      && Count(r, BroadcastBlock(blockHash)) == (if outcome.BlockStored? && shouldBroadcast then 1 else 0)
      && forall e | e in r :: !e.BroadcastAddr? && !e.BroadcastTx?
  {
  }

  /** The completion callback of `historicSync.start`: it only logs. */
  function OnResyncDone(): (r: seq<Effect>)
    ensures forall e | e in r :: e.Log?
    ensures |r| == 1
  {
    [Log(ResyncDone)]
  }

  /**
   * A block message from arrival to the `storeTipBlock` callback: the
   * callback closes over the hash `handleBlock` computed.
   */
  function BlockFlow(block: RawBlock, calcHash: RawBlock -> Hash, formatHash: Hash -> string, allowReorgs: bool,
                     outcome: BlockOutcome, historicSyncSet: bool, shouldBroadcast: bool): (r: seq<Effect>)
    ensures var h := formatHash(calcHash(block));
      && |r| >= 2 && r[0] == Log(HandlingBlock(h, allowReorgs))
      && r[1].StoreTipBlock? && r[1].tip.hash == h && r[1].allowReorgs == allowReorgs
      && ((HistoricStart(ForceRpc) in r) <==> outcome.BlockFailed? && NeedsSync(outcome.message) && historicSyncSet)
      && ((BroadcastBlock(h) in r) <==> outcome.BlockStored? && shouldBroadcast)
  {
    var handled := HandleBlock(block, calcHash, formatHash, allowReorgs);
    handled + OnTipBlockStored(handled[1].tip.hash, outcome, historicSyncSet, shouldBroadcast)
  }

  /**
   * A block is broadcast under its own computed hash, exactly once when it
   * was stored and broadcasting is on and never otherwise, and no address or
   * transaction broadcast follows a block.
   */
  lemma BlockFlowBroadcastsOwnHash(block: RawBlock, calcHash: RawBlock -> Hash, formatHash: Hash -> string,
                                    allowReorgs: bool, outcome: BlockOutcome, historicSyncSet: bool,
                                    shouldBroadcast: bool)
    ensures var h := formatHash(calcHash(block));
      var r := BlockFlow(block, calcHash, formatHash, allowReorgs, outcome, historicSyncSet, shouldBroadcast);
      && (forall e | e in r && e.BroadcastBlock? :: e == BroadcastBlock(h))
      && Count(r, BroadcastBlock(h)) == (if outcome.BlockStored? && shouldBroadcast then 1 else 0)
      && (forall e | e in r :: !e.BroadcastAddr? && !e.BroadcastTx?)
  {
  }
}
