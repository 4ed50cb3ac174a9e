# PeerSync, modelled in Dafny

`PeerSync` is the peer-synchronisation engine of the insight API node for Dilcoin.
It connects to the configured peer through a peer manager and keeps a `connected` flag.
It runs a watchdog interval that restarts the manager after the network is lost.
It answers `inv` announcements with a get-data request to the announcing peer, and hands `tx`, `ix` and `block` messages to the storage layer.
After a successful store it broadcasts to socket clients.
When the store reports an orphan block (`NEED_SYNC`), it triggers a historic resync.

The model has two parts.

- `supervisor.dfy`, module `Supervisor`: the connection/watchdog state machine, written as the class `PeerSync`.
  Its fields are `connected`, `interval`, `peerdb`, `allowReorgs` and `timer`, an `Option` handle.
  It also records what the peer manager and the timers were given.
  That record is the peers added, the manager listeners registered in order, how many times the manager was started, how many intervals were created, and whether that interval still runs.
  A manager event fires every listener registered for it, one after another.
  The listener bodies of `run()` are methods of their own: `ConnectionListener` and `DisconnectedListener`.
  The object invariant `Valid()` states that at most one interval is ever created.
  It also states that each `run()` adds the configured peer once and one listener of each kind.
- `dispatch.dfy`, module `Dispatch`: the message-dispatch decisions, written as pure functions.
  Each returns the side effects the handler performs, in order, as a sequence of `Effect` values.
  The effects are `GetData`, `StoreTx`, `StoreTipBlock`, `BroadcastTx`, `BroadcastAddr`, `BroadcastBlock`, `HistoricStart` and `Log`.
  Each storage call is an effect.
  Its completion callback is a separate function of the storage outcome, the `shouldBroadcast` flag and, for blocks, whether a historic-sync collaborator is attached.
  `TxFlow` and `BlockFlow` join each handler to its callback, so the callback sees the transaction and block hash the handler computed.
- `seqs.dfy` (repetition and occurrence counting, with their lemmas) and `wrappers.dfy` (`Option`) are helpers.

Behaviour of the code that the model keeps as written:

- `run()` clears the interval but never resets `timer`.
  So the first disconnection creates the one interval.
  A tick while the object is connected does nothing, and the interval keeps running.
  The first tick that finds the object disconnected restarts the manager and stops the interval.
  After that no interval runs, and no later disconnection creates one.
  `Supervisor.WatchdogArmsOnce` shows this sequence.
  The code does not keep a watchdog running whenever the node is disconnected.
- `run()` registers its three listeners again on every call and never removes the old ones.
  After `n` calls, a `connection` event attaches `n` copies of each message handler to the new connection.
  A `netDisconnected` event runs `n` listeners, and still at most one interval is created.
- The orphan test is the unanchored regular expression `/NEED_SYNC/`, which is a substring test.
  There is no in-flight guard: every orphan error with a historic-sync collaborator attached starts one resync.
  The option passed is `forceRPC: 1`.
- `tx.time || Math.round(now / 1000)` also replaces a time of `0`.
  `Math.round` rounds halves up, which is `(nowMs + 500) / 1000` in floor division.

Inputs that the code reads from its surroundings are parameters of the model.
These are the configured host and port, the clock reading in milliseconds, the standardized transaction, and the storage outcomes.
They also include whether `historicSync` is attached; it is never assigned in `PeerSync.js`.
The library's block hash (`calcHash`) and hash formatting (`formatHashFull`) are passed in as uninterpreted functions.

## Model

| member | source | states |
|---|---|---|
| `Supervisor.PeerSync.constructor` | insight-api-dilcoin/lib/PeerSync.js:14-28 | starts disconnected, interval 5000, reorgs not allowed, `peerdb` exactly the one configured `{ipv4, port}`, no timer, nothing registered with the manager |
| `Supervisor.PeerSync.LoadPeers` | insight-api-dilcoin/lib/PeerSync.js:34-41 | the peer list becomes exactly the configured primary peer; loading again on a valid object leaves the list as it was |
| `Supervisor.PeerSync.Info` | insight-api-dilcoin/lib/PeerSync.js:43-49 | reports the current `connected` flag and the configured primary peer's host and port |
| `Supervisor.PeerSync.Run` | insight-api-dilcoin/lib/PeerSync.js:137-162 | stops any interval while keeping `timer`; appends one added peer per `peerdb` entry; appends one `connection`, `connect` and `netDisconnected` listener; counts one more manager start; changes nothing else and keeps the invariant |
| `Supervisor.PeerSync.CheckStatus` | insight-api-dilcoin/lib/PeerSync.js:130-135 | restarts, with exactly the effect of `run()`, when disconnected and `timer` is set; otherwise changes nothing |
| `Supervisor.PeerSync.ConnectionListener` | insight-api-dilcoin/lib/PeerSync.js:147-153 | one `connection` listener marks the object connected and attaches the `inv`, `block`, `tx` and `ix` handlers, in that order |
| `Supervisor.PeerSync.OnConnection` | insight-api-dilcoin/lib/PeerSync.js:147-153 | a `connection` event connects the object as soon as one `run()` happened and attaches one copy of the four handlers per `run()` so far |
| `Supervisor.PeerSync.DisconnectedListener` | insight-api-dilcoin/lib/PeerSync.js:156-159 | one `netDisconnected` listener marks the object disconnected and creates an interval of period `interval` only when `timer` is unset; the invariant (at most one interval ever) is kept |
| `Supervisor.PeerSync.OnNetDisconnected` | insight-api-dilcoin/lib/PeerSync.js:156-159 | a `netDisconnected` event disconnects the object once any `run()` happened; however many listeners have accumulated, the interval count grows by one at most, and only when `timer` was unset |
| `Supervisor.WatchdogArmsOnce` | insight-api-dilcoin/lib/PeerSync.js:130-162 | run, disconnect, watchdog tick, disconnect again: the object is disconnected, only one interval was ever created, and none is running |
| `Dispatch.HandleInv` | insight-api-dilcoin/lib/PeerSync.js:51-54 | exactly one get-data request, carrying exactly the announced inventory, unfiltered |
| `Dispatch.RoundToSeconds` | insight-api-dilcoin/lib/PeerSync.js:69 | the result is the whole second nearest to the clock reading, with halves rounded up |
| `Dispatch.TxTime` | insight-api-dilcoin/lib/PeerSync.js:69 | a truthy time is kept; an undefined time or a time of 0 is replaced by the nearest whole second of the clock |
| `Dispatch.HandleTxMessage` | insight-api-dilcoin/lib/PeerSync.js:65-70 | logs the txid, then one storage call with the same txid and fields and the time defaulted as `TxTime` says; the storage call receives only the transaction, and its callback keeps the tag given |
| `Dispatch.HandleTx` | insight-api-dilcoin/lib/PeerSync.js:82-84 | a `tx` message is stored, and its callback keeps the tag `'tx'` |
| `Dispatch.HandleIX` | insight-api-dilcoin/lib/PeerSync.js:86-88 | an `ix` message is stored, and its callback keeps the tag `'ix'` |
| `Dispatch.TxAndIxDifferOnlyInTag` | insight-api-dilcoin/lib/PeerSync.js:82-88 | for the same message and clock, `tx` and `ix` produce the same log and the same stored transaction, and differ in the tag |
| `Dispatch.AddrEffects` | insight-api-dilcoin/lib/PeerSync.js:58-60 | one address broadcast per property, in enumeration order, carrying the txid and the property's key (not its value) |
| `Dispatch.BroadcastAddrs` | insight-api-dilcoin/lib/PeerSync.js:56-62 | no effect when the addresses are falsy; otherwise as many address broadcasts as properties, all for the given txid |
| `Dispatch.OnTxStored` | insight-api-dilcoin/lib/PeerSync.js:71-79 | on an error only a log; on success without broadcasting nothing; on success with broadcasting the transaction broadcast first, followed exactly by the address broadcasts |
| `Dispatch.TxBroadcastCounts` | insight-api-dilcoin/lib/PeerSync.js:56-79 | a stored, broadcast transaction gives exactly one transaction broadcast and one address broadcast per related key, with the txid and key at each position; in every other case there is no broadcast at all |
| `Dispatch.TxFlow` | insight-api-dilcoin/lib/PeerSync.js:65-79 | a `tx`/`ix` message from arrival through the `storeTx` callback: the txid log, then the storage call with the time-defaulted transaction under the message's tag; after it one error log on failure, nothing when stored without broadcasting, or the broadcast of that same stored transaction followed by its address broadcasts |
| `Dispatch.TxFlowBroadcastsStoredTx` | insight-api-dilcoin/lib/PeerSync.js:65-79 | from message to callback, the stored transaction is the message's with its time defaulted, and every transaction broadcast is exactly that transaction under the message's tag, once after a successful store with broadcasting on and never otherwise |
| `Dispatch.TxHashes` | insight-api-dilcoin/lib/PeerSync.js:96-98 | the same length as the block's transaction list, and each entry is the formatted hash of the transaction at that position |
| `Dispatch.HandleBlock` | insight-api-dilcoin/lib/PeerSync.js:90-104 | logs the block hash, then one `storeTipBlock` call with the `allowReorgs` flag and a descriptor holding the formatted block hash, the formatted previous hash, and the transaction hashes in order |
| `Dispatch.ContainsIffOccurs` | insight-api-dilcoin/lib/PeerSync.js:105 | the unanchored match holds if and only if the pattern occurs at some position of the message |
| `Dispatch.NeedsSync` | insight-api-dilcoin/lib/PeerSync.js:105 | the orphan test `err.message.match(/NEED_SYNC/)` holds if and only if `NEED_SYNC` occurs at some position of the message |
| `Dispatch.OnTipBlockStored` | insight-api-dilcoin/lib/PeerSync.js:104-121 | resync is started iff the error message matches `NEED_SYNC` and a historic-sync collaborator is attached, and at most once; the block is broadcast iff it was stored and broadcasting is on; nothing else but logs is emitted |
| `Dispatch.ResyncIffNeedSync` | insight-api-dilcoin/lib/PeerSync.js:105-113 | some `HistoricStart` is emitted iff the store failed, historic sync is attached and `NEED_SYNC` occurs as a substring of the message; if so, exactly one, with `forceRPC` 1 |
| `Dispatch.BlockBroadcastOnce` | insight-api-dilcoin/lib/PeerSync.js:114-120 | a stored block with broadcasting on is broadcast exactly once, otherwise never; a block never causes a transaction or address broadcast |
| `Dispatch.BlockFlow` | insight-api-dilcoin/lib/PeerSync.js:90-121 | a `block` message from arrival through the `storeTipBlock` callback: the hash log, then the storage call for the block's own formatted hash with the `allowReorgs` flag; a resync with `forceRPC` 1 is started iff the store failed with `NEED_SYNC` and historic sync is attached; the block is broadcast under that hash iff it was stored and broadcasting is on |
| `Dispatch.BlockFlowBroadcastsOwnHash` | insight-api-dilcoin/lib/PeerSync.js:90-121 | from message to callback, every block broadcast carries the block's own formatted hash, exactly once when it was stored and broadcasting is on and never otherwise; no transaction or address broadcast follows a block |
| `Dispatch.OnResyncDone` | insight-api-dilcoin/lib/PeerSync.js:107-109 | the resync completion callback only logs, once |

## Left out

- Network I/O of the peer manager (`Peer`, `PeerManager`, `peerman.start()`): the manager is modelled as the record of peers added, listeners registered and starts.
- `fs.writeFileSync` of `peerdb.json` in `load_peers`: file I/O; a failed write, which would throw, is not modelled.
- `log` and `console.log`: a `Log` effect stands for a call of `log`; whether it prints (the `verbose` flag) is console output.
- `handleConnected`, the `connect` listener: it only logs the peer count; the model records its registration but does not run it.
- `close()`: it only calls the storage collaborator's `close`, which is not part of this model.
- The storage collaborator (`getStandardizedTx`, `storeTx`, `storeTipBlock`) and `historicSync.start`: external; their calls are effects and their results are inputs.
- `block.calcHash()` and `bitcoreUtil.formatHashFull`: library hashing and formatting, passed in as uninterpreted functions.
- `Date.now()` and the timing of `setInterval` ticks: the clock is a parameter, and a tick is a call of `CheckStatus`.
- Asynchronous interleaving of storage callbacks: each callback is a separate deterministic step.
- A storage error without a string `message`, on which `err.message.match` would throw: the model takes the message as a string.
- The `soop` module wrapper.
