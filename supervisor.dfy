/**
 * The connection supervisor of PeerSync: the peer list, the `connected` flag,
 * the watchdog interval and what `run()` registers with the peer manager.
 *
 * The peer manager and the process's interval timers are not modelled as
 * running machinery; the object records what was handed to them: the peers
 * added, the listeners registered (in order), how often the manager was
 * started, how many intervals were created and whether the one created is
 * still running. A manager-level event fires every listener registered for
 * it, one after another, as an event emitter does.
 */
module Supervisor {
  import opened Wrappers
  import opened Seqs

  /** One entry of `peerdb`: `{ipv4, port}`. */
  datatype PeerEndpoint = PeerEndpoint(ipv4: string, port: int)

  /** The result of `info()`. */
  datatype Status = Status(connected: bool, host: string, port: int)

  /** The handle `setInterval` returns: which interval it is and its period. */
  datatype TimerHandle = TimerHandle(id: nat, periodMs: int)

  /** The peer-manager events `run()` listens to. */
  datatype ManagerEvent = ConnectionEvent | ConnectEvent | NetDisconnectedEvent

  /** The connection-level messages the `connection` listener subscribes to. */
  datatype MessageEvent = InvMessage | BlockMessage | TxMessage | IxMessage

  /** The watchdog period the constructor sets, in milliseconds. */
  const DefaultInterval: int := 5000

  /** The listeners one `run()` registers with the peer manager, in order. */
  const RunListeners: seq<ManagerEvent> := [ConnectionEvent, ConnectEvent, NetDisconnectedEvent]

  /** The message handlers one `connection` listener attaches to the new connection, in order. */
  const ConnectionHandlers: seq<MessageEvent> := [InvMessage, BlockMessage, TxMessage, IxMessage]

  class PeerSync {
    // configuration: the primary peer and the constructor options.
    // `shouldBroadcast`, `allowReorgs` and `verbose` are read only by the message
    // handlers attached to a connection; those are the functions of `Dispatch`,
    // which take the object's values as their `shouldBroadcast` and `allowReorgs`
    // arguments (and `verbose` only decides whether a `Log` effect prints).
    const p2pHost: string
    const p2pPort: int
    const shouldBroadcast: bool
    const verbose: bool

    var connected: bool
    var interval: int
    var peerdb: seq<PeerEndpoint>
    var allowReorgs: bool
    var timer: Option<TimerHandle>

    // what the peer manager has been given
    var addedPeers: seq<PeerEndpoint>
    var listeners: seq<ManagerEvent>
    var starts: nat

    // the interval timers of the process
    var intervalsCreated: nat
    var intervalRunning: bool

    /**
     * The object invariant. Every `run()` has added the one configured peer
     * and registered one more listener of each kind; at most one interval was
     * ever created, `timer` holds it from then on, and it can only be running
     * while `timer` is set.
     */
    ghost predicate Valid()
      reads this
    {
      && peerdb == [PeerEndpoint(p2pHost, p2pPort)]
      && addedPeers == Repeat(peerdb, starts)
      && listeners == Repeat(RunListeners, starts)
      && intervalsCreated <= 1
      && (timer.None? <==> intervalsCreated == 0)
      && (timer.Some? ==> timer.value == TimerHandle(0, interval))
      && (intervalRunning ==> timer.Some?)
    }

    /** `new PeerSync(opts)`; the configured primary peer comes in as `p2pHost`, `p2pPort`. */
    constructor (p2pHost: string, p2pPort: int, shouldBroadcast: bool, verbose: bool)
      ensures Valid()
      ensures this.p2pHost == p2pHost && this.p2pPort == p2pPort
      ensures this.shouldBroadcast == shouldBroadcast && this.verbose == verbose
      ensures !connected && interval == DefaultInterval && !allowReorgs
      ensures peerdb == [PeerEndpoint(p2pHost, p2pPort)]
      ensures timer.None? && intervalsCreated == 0 && !intervalRunning
      ensures addedPeers == [] && listeners == [] && starts == 0
    {
      this.p2pHost := p2pHost;
      this.p2pPort := p2pPort;
      this.shouldBroadcast := shouldBroadcast;
      this.verbose := verbose;
      connected := false;
      interval := DefaultInterval;
      peerdb := [];
      allowReorgs := false;
      timer := None;
      addedPeers := [];
      listeners := [];
      starts := 0;
      intervalsCreated := 0;
      intervalRunning := false;
      new;
      LoadPeers();
    }

    /** `load_peers`: the peer list is exactly the configured primary peer, every time. */
    method LoadPeers()
      modifies this`peerdb
      ensures peerdb == [PeerEndpoint(p2pHost, p2pPort)]
      ensures old(Valid()) ==> Valid() && peerdb == old(peerdb)
    {
      peerdb := [PeerEndpoint(p2pHost, p2pPort)];
    }

    /** `info()`: the connection flag and the primary peer's address. */
    function Info(): (s: Status)
      reads this
      requires Valid()
      ensures s.connected == connected
      ensures s.host == p2pHost && s.port == p2pPort
    {
      Status(connected, peerdb[0].ipv4, peerdb[0].port)
    }

    /**
     * `run()`: clear the interval if `timer` is set (but keep `timer`), add
     * one peer per `peerdb` entry, register the three manager listeners again
     * and start the manager. Nothing else changes.
     */
    method Run()
      requires Valid()
      modifies this`intervalRunning, this`addedPeers, this`listeners, this`starts
      ensures Valid()
      ensures !intervalRunning
      ensures addedPeers == old(addedPeers) + peerdb
      ensures listeners == old(listeners) + RunListeners
      ensures starts == old(starts) + 1
    {
      if timer.Some? {
        intervalRunning := false;
      }
      var i := 0;
      while i < |peerdb|
        invariant 0 <= i <= |peerdb|
        invariant addedPeers == old(addedPeers) + peerdb[..i]
        invariant listeners == old(listeners) && starts == old(starts)
        invariant !intervalRunning
      {
        addedPeers := addedPeers + [peerdb[i]];
        i := i + 1;
      }
      listeners := listeners + [ConnectionEvent];
      listeners := listeners + [ConnectEvent];
      listeners := listeners + [NetDisconnectedEvent];
      starts := starts + 1;
    }

    /** `checkStatus()`, the watchdog tick: restart only when disconnected and `timer` is set. */
    method CheckStatus()
      requires Valid()
      modifies this`intervalRunning, this`addedPeers, this`listeners, this`starts
      ensures Valid()
      ensures !connected && timer.Some? ==>
        && !intervalRunning
        && addedPeers == old(addedPeers) + peerdb
        && listeners == old(listeners) + RunListeners
        && starts == old(starts) + 1
      ensures connected || timer.None? ==> unchanged(this)
    {
      if !connected && timer.Some? {
        Run();
      }
    }

    /** The `connection` listener: mark connected and attach the four message handlers. */
    method ConnectionListener() returns (attached: seq<MessageEvent>)
      modifies this`connected
      ensures connected
      ensures attached == ConnectionHandlers
    {
      connected := true;
      attached := [InvMessage, BlockMessage, TxMessage, IxMessage];
    }

    /**
     * A `connection` event: every registered `connection` listener runs. The
     * new connection gets one copy of the four message handlers per `run()`
     * so far, and the object is connected as soon as one listener exists.
     */
    method OnConnection() returns (attached: seq<MessageEvent>)
      requires Valid()
      modifies this`connected
      ensures Valid()
      ensures connected == (old(connected) || starts > 0)
      ensures attached == Repeat(ConnectionHandlers, starts)
    {
      attached := [];
      var i := 0;
      while i < |listeners|
        invariant 0 <= i <= |listeners|
        invariant Valid()
        invariant attached == Repeat(ConnectionHandlers, Count(listeners[..i], ConnectionEvent))
        invariant connected == (old(connected) || Count(listeners[..i], ConnectionEvent) > 0)
      {
        assert listeners[..i + 1][..i] == listeners[..i];
        if listeners[i] == ConnectionEvent {
          var handlers := ConnectionListener();
          attached := attached + handlers;
        }
        i := i + 1;
      }
      assert listeners[..i] == listeners;
      CountRepeat(RunListeners, starts, ConnectionEvent);
      assert Count(RunListeners, ConnectionEvent) == 1 by {
        assert RunListeners[..2][..1] == [ConnectionEvent];
        assert RunListeners[..2] == [ConnectionEvent, ConnectEvent];
      }
    }

    /** The `netDisconnected` listener: mark disconnected and create the interval unless `timer` is set. */
    method DisconnectedListener()
      requires Valid()
      modifies this`connected, this`timer, this`intervalsCreated, this`intervalRunning
      ensures Valid()
      ensures !connected
      ensures old(timer).None? ==> timer == Some(TimerHandle(0, interval)) && intervalsCreated == 1 && intervalRunning
      ensures old(timer).Some? ==> timer == old(timer) && intervalsCreated == old(intervalsCreated)
                                   && intervalRunning == old(intervalRunning)
    {
      connected := false;
      if timer.None? {
        timer := Some(TimerHandle(intervalsCreated, interval));
        intervalsCreated := intervalsCreated + 1;
        intervalRunning := true;
      }
    }

    /**
     * A `netDisconnected` event: every registered `netDisconnected` listener
     * runs in turn. However many `run()` calls have stacked listeners up, at
     * most one interval is created, and only when `timer` was unset.
     */
    method OnNetDisconnected()
      requires Valid()
      modifies this`connected, this`timer, this`intervalsCreated, this`intervalRunning
      ensures Valid()
      ensures starts == 0 ==> unchanged(this)
      ensures starts > 0 ==> !connected
      ensures starts > 0 && old(timer).None? ==> timer == Some(TimerHandle(0, interval)) && intervalRunning
      ensures old(timer).Some? ==> timer == old(timer) && intervalRunning == old(intervalRunning)
      ensures intervalsCreated == old(intervalsCreated) + (if starts > 0 && old(timer).None? then 1 else 0)
    {
      var i := 0;
      while i < |listeners|
        invariant 0 <= i <= |listeners|
        invariant Valid()
        invariant Count(listeners[..i], NetDisconnectedEvent) == 0 ==> unchanged(this)
        invariant Count(listeners[..i], NetDisconnectedEvent) > 0 ==> !connected
        invariant Count(listeners[..i], NetDisconnectedEvent) > 0 && old(timer).None? ==>
          timer == Some(TimerHandle(0, interval)) && intervalRunning && intervalsCreated == 1
        invariant old(timer).Some? ==> timer == old(timer) && intervalRunning == old(intervalRunning)
                                       && intervalsCreated == old(intervalsCreated)
      {
        assert listeners[..i + 1][..i] == listeners[..i];
        if listeners[i] == NetDisconnectedEvent {
          DisconnectedListener();
        }
        i := i + 1;
      }
      assert listeners[..i] == listeners;
      CountRepeat(RunListeners, starts, NetDisconnectedEvent);
      assert Count(RunListeners, NetDisconnectedEvent) == 1 by {
        assert RunListeners[..2][..1] == [ConnectionEvent];
        assert RunListeners[..2] == [ConnectionEvent, ConnectEvent];
      }
    }
  }

  /**
   * One run of the watchdog: `run()`, a disconnection, a tick, a second
   * disconnection. The disconnection creates the interval. In this sequence
   * the tick finds the object disconnected, so it restarts the manager and
   * clears the interval but leaves `timer` set; the second disconnection
   * therefore creates no new interval, and none is running.
   */
  method WatchdogArmsOnce(host: string, port: int) returns (connected: bool, running: bool, created: nat)
    ensures !connected && !running && created == 1
  {
    var ps := new PeerSync(host, port, true, false);
    ps.Run();
    ps.OnNetDisconnected();
    assert ps.intervalRunning;
    ps.CheckStatus();
    assert ps.starts == 2;
    ps.OnNetDisconnected();
    connected, running, created := ps.connected, ps.intervalRunning, ps.intervalsCreated;
  }
}
