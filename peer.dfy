/**
 * The per-peer lifecycle of a WireGuard tunnel device (wireguard-go,
 * device/peer.go): admitting a peer into the device's key map, starting and
 * stopping its packet pipeline, erasing and expiring its session keys,
 * sending a buffer to its endpoint, learning its endpoint from packets, and
 * naming it in log lines.
 *
 * Locks, atomics and goroutines are left out: every operation is one
 * atomic update of the fields below, and the interleavings the source's
 * separately locked steps allow are not modelled. Channels become queue states, the
 * stopping WaitGroup a counter, the device's encryption WaitGroup an open
 * count, and the calls into code outside the file (DeleteKeypair, bind.Send)
 * ghost logs or parameters.
 */
module PeerLifecycle {
  import opened Wrappers
  import Base64

  type byte = Base64.byte
  type uint32 = x: int | 0 <= x < 0x1_0000_0000
  type uint64 = x: int | 0 <= x < 0x1_0000_0000_0000_0000

  /** A Curve25519 public key (NoisePublicKey): exactly 32 bytes. */
  const NoisePublicKeySize: nat := 32
  const ZeroKey: seq<byte> := seq(NoisePublicKeySize, _ => 0)
  type Key = k: seq<byte> | |k| == NoisePublicKeySize witness ZeroKey

  /** A locally assigned handshake index, a key of the device's index table. */
  type Index = uint32

  /** A point in time, in nanoseconds; the clock is an input. */
  type Time = int

  const Second: int := 1_000_000_000
  /** Protocol constants used by the file: 5 s, and 2^64 - 2^13 - 1 messages. */
  const RekeyTimeout: int := 5 * Second
  const RejectAfterMessages: uint64 := 0x1_0000_0000_0000_0000 - 0x2000 - 1
  /** The most peers one device holds (1 << 16). */
  const MaxPeers: nat := 0x1_0000

  /** The character Go writes between the two halves of an abbreviated key. */
  const Ellipsis: char := '\U{2026}'

  /**
   * A peer's inbound or outbound channel: never made, open, or closed. The
   * generation tells apart the channels made by successive starts.
   */
  datatype Queue = Absent | Open(generation: nat) | Closed(generation: nat) {
    function Generation(): nat {
      if Absent? then 0 else generation
    }
  }

  /** A packet waiting in the staged queue. */
  datatype Element = Element(packet: seq<byte>)

  /** A learned network address of a peer (conn.Endpoint). */
  datatype Endpoint = Endpoint(address: string)

  /**
   * The part of the Noise handshake state this file reads or writes, apart
   * from the remote static key (Peer.remoteStatic): `cleared` stands for the
   * zeroed handshake state.
   */
  datatype Handshake = Handshake(localIndex: Index, cleared: bool, lastSentHandshake: Time) {
    /**
     * Handshake.Clear: zeroes the ephemeral secrets and the local index; the
     * last-sent time is kept.
     */
    function Clear(): Handshake {
      this.(localIndex := 0, cleared := true)
    }
  }

  /** The keypair slots (Keypairs): nil is None. */
  datatype Keypairs = Keypairs(previous: Option<Keypair>, current: Option<Keypair>, next: Option<Keypair>)

  /**
   * The peer's three channels: the staged channel, None until first made,
   * with the packets it holds; the outbound and inbound channels.
   */
  datatype Queues = Queues(staged: Option<seq<Element>>, outbound: Queue, inbound: Queue) {
    /**
     * The channels after a start: a new inbound and outbound channel, one
     * generation newer than the last, and the staged channel made only if it
     * never was, so that packets staged while stopped are kept.
     */
    function Restarted(): (r: Queues)
      ensures r.outbound == Open(outbound.Generation() + 1) && r.inbound == r.outbound
      ensures r.staged.Some? && (staged.Some? ==> r.staged == staged)
    {
      var generation := outbound.Generation() + 1;
      Queues(if staged.None? then Some([]) else staged, Open(generation), Open(generation))
    }

    /** The channels after a stop: inbound and outbound closed, the staged channel untouched. */
    function Shut(): (r: Queues)
      requires outbound.Open? && inbound.Open?
      ensures r.outbound == Closed(outbound.generation) && r.inbound == Closed(inbound.generation)
      ensures r.staged == staged
    {
      this.(outbound := Closed(outbound.generation), inbound := Closed(inbound.generation))
    }

    /** FlushStagedPackets: drops every staged packet; a staged channel never made stays unmade. */
    function Flushed(): Queues {
      if staged.None? then this else this.(staged := Some([]))
    }
  }

  /** The errors NewPeer returns: "device closed", "too many peers", "adding existing peer". */
  datatype NewPeerError = DeviceClosed | TooManyPeers | ExistingPeer

  /** The errors SendBuffer returns: "no bind", "no known endpoint for peer", or the bind's own. */
  datatype SendError = NoBind | NoKnownEndpoint | BindFailed(reason: string)

  /** A symmetric session keypair; only its send counter matters here. */
  class Keypair {
    var sendNonce: uint64

    constructor (sendNonce: uint64)
      ensures this.sendNonce == sendNonce
    {
      this.sendNonce := sendNonce;
    }
  }

  /** The device state the peer lifecycle reads and writes. */
  class Device {
    var isClosed: bool
    var isUp: bool
    /** Whether a UDP bind is set (net.bind != nil). */
    var bindPresent: bool
    /** peers.keyMap and peers.empty. */
    var keyMap: map<Key, Peer>
    var empty: bool
    /** The open count of the shared encryption queue's WaitGroup. */
    var encryptionOpenCount: nat
    var indexTable: map<Index, Peer>
    /** Every keypair handed to DeleteKeypair, in order (nil as None). */
    ghost var deletedKeypairs: seq<Option<Keypair>>
    /** Every buffer handed to bind.Send, with the endpoint it was sent to. */
    ghost var transmissions: seq<(seq<byte>, Endpoint)>
    /** The peers that hold the encryption queue open. */
    ghost var runningPeers: set<Peer>

    /**
     * The device invariant: the key map is within its limit, `empty` tells
     * whether it is empty, every peer is registered under its own remote
     * static key, and every running peer holds the encryption queue open.
     */
    ghost predicate Valid()
      reads this`keyMap, this`empty, this`runningPeers, this`encryptionOpenCount
    {
      && |keyMap| <= MaxPeers
      && empty == (|keyMap| == 0)
      && (forall pk | pk in keyMap :: keyMap[pk].device == this && keyMap[pk].remoteStatic == pk)
      && |runningPeers| <= encryptionOpenCount
    }

    /** A new device: open, down, unbound, with no peers; the encryption queue holds its own count. */
    constructor ()
      ensures Valid()
      ensures !isClosed && !isUp && !bindPresent
      ensures keyMap == map[] && empty && indexTable == map[]
      ensures encryptionOpenCount == 1 && runningPeers == {}
      ensures deletedKeypairs == [] && transmissions == []
    {
      isClosed, isUp, bindPresent := false, false, false;
      keyMap, empty, indexTable := map[], true, map[];
      encryptionOpenCount := 1;
      runningPeers := {};
      deletedKeypairs, transmissions := [], [];
    }

    /** The part of NewPeer past its checks: a new stopped peer, entered in the key map. */
    method Admit(pk: Key) returns (peer: Peer)
      requires Valid() && |keyMap| < MaxPeers && pk !in keyMap
      modifies this`keyMap, this`empty
      ensures Valid() && fresh(peer) && peer.Valid()
      ensures keyMap == old(keyMap)[pk := peer] && !empty
      ensures peer.device == this && peer.remoteStatic == pk
      ensures !peer.isRunning && peer.stoppingCount == 0 && !peer.timersActive
      ensures peer.queue == Queues(None, Absent, Absent)
      ensures peer.keypairs == Keypairs(None, None, None)
      ensures peer.handshake == Handshake(0, true, 0)
      ensures peer.endpoint == None && !peer.disableRoaming && peer.txBytes == 0
    {
      peer := new Peer(this, pk);
      keyMap := keyMap[pk := peer];
      empty := false;
    }

    /**
     * NewPeer: admits a peer for the key pk. The checks run in order (device
     * closed, then the peer limit, then a duplicate key), and a failure
     * leaves the device as it was. The new peer is started when the device
     * is up.
     */
    method NewPeer(pk: Key, now: Time) returns (r: Result<Peer, NewPeerError>)
      requires Valid()
      modifies this`keyMap, this`empty, this`encryptionOpenCount, this`runningPeers
      ensures Valid()
      ensures old(isClosed) ==> r == Failure(DeviceClosed)
      ensures !old(isClosed) && old(|keyMap|) >= MaxPeers ==> r == Failure(TooManyPeers)
      ensures !old(isClosed) && old(|keyMap|) < MaxPeers && pk in old(keyMap) ==> r == Failure(ExistingPeer)
      ensures !old(isClosed) && old(|keyMap|) < MaxPeers && pk !in old(keyMap) ==> r.Success?
      ensures r.Failure? ==>
        && keyMap == old(keyMap) && empty == old(empty)
        && encryptionOpenCount == old(encryptionOpenCount) && runningPeers == old(runningPeers)
      ensures r.Success? ==>
        && !old(isClosed) && old(|keyMap|) < MaxPeers && pk !in old(keyMap)
        && fresh(r.value) && r.value.device == this && r.value.Valid()
        && keyMap == old(keyMap)[pk := r.value] && !empty
        && r.value.remoteStatic == pk && r.value.endpoint == None
        && r.value.keypairs == Keypairs(None, None, None)
        && r.value.txBytes == 0 && !r.value.disableRoaming
        && r.value.isRunning == isUp
      ensures r.Success? && isUp ==>
        && r.value.queue == Queues(None, Absent, Absent).Restarted()
        && r.value.handshake == Handshake(0, true, now - (RekeyTimeout + Second))
        && encryptionOpenCount == old(encryptionOpenCount) + 1
        && runningPeers == old(runningPeers) + {r.value}
      ensures r.Success? && !isUp ==>
        && r.value.queue == Queues(None, Absent, Absent)
        && r.value.handshake == Handshake(0, true, 0)
        && encryptionOpenCount == old(encryptionOpenCount) && runningPeers == old(runningPeers)
    {
      if isClosed {
        return Failure(DeviceClosed);
      }
      if |keyMap| >= MaxPeers {
        return Failure(TooManyPeers);
      }
      if pk in keyMap {
        return Failure(ExistingPeer);
      }
      var peer := Admit(pk);
      if isUp {
        peer.Start(now);
      }
      return Success(peer);
    }
  }

  /** One remote tunnel endpoint and its session. */
  class Peer {
    const device: Device
    /** handshake.remoteStatic: the peer's public key, fixed when the peer is made. */
    const remoteStatic: Key
    var isRunning: bool
    var keypairs: Keypairs
    var handshake: Handshake
    var endpoint: Option<Endpoint>
    /** The stopping WaitGroup: how many of the sequential sender and receiver are still to exit. */
    var stoppingCount: nat
    /** stats.txBytes. */
    var txBytes: uint64
    var disableRoaming: bool
    /** Whether the peer's timers are set up (timersInit / timersStop). */
    var timersActive: bool
    var queue: Queues

    /**
     * The peer invariant: a running peer has both channels open, a staged
     * channel, two routines pending and its timers set up, and holds the
     * encryption queue open; a stopped peer has neither channel open, no
     * routine pending and no timers. Inbound and outbound channels are made
     * together.
     */
    ghost predicate Valid()
      reads this`isRunning, this`stoppingCount, this`timersActive, this`queue, device`runningPeers
    {
      && (isRunning ==> queue.inbound.Open? && queue.outbound.Open? && queue.staged.Some? && stoppingCount == 2 && timersActive)
      && (!isRunning ==> !queue.inbound.Open? && !queue.outbound.Open? && stoppingCount == 0 && !timersActive)
      && (isRunning <==> this in device.runningPeers)
      && queue.inbound.Generation() == queue.outbound.Generation()
    }

    /** new(Peer) with its device and remote static key set: every other field at Go's zero value. */
    constructor (device: Device, pk: Key)
      ensures this.device == device && remoteStatic == pk && Valid()
      ensures !isRunning && stoppingCount == 0 && !timersActive
      ensures queue == Queues(None, Absent, Absent)
      ensures keypairs == Keypairs(None, None, None)
      ensures handshake == Handshake(0, true, 0)
      ensures endpoint == None && !disableRoaming && txBytes == 0
    {
      this.device, remoteStatic := device, pk;
      isRunning, stoppingCount, timersActive := false, 0, false;
      queue := Queues(None, Absent, Absent);
      keypairs := Keypairs(None, None, None);
      handshake := Handshake(0, true, 0);
      endpoint, disableRoaming, txBytes := None, false, 0;
    }

    /** The keypairs whose send counters ExpireCurrentKeypairs overwrites. */
    function SendingKeypairs(): set<Keypair>
      reads this
    {
      (if keypairs.current.Some? then {keypairs.current.value} else {})
      + (if keypairs.next.Some? then {keypairs.next.value} else {})
    }

    /**
     * SendBuffer: hands the buffer to the bind for the peer's endpoint. With
     * no bind it drops the buffer silently while the device is closing and
     * fails otherwise; with no endpoint it fails; the tx counter grows (mod
     * 2^64) only when the bind reports success. `bindResult` is the bind's
     * answer: None for success, Some(reason) for its error.
     */
    method SendBuffer(buffer: seq<byte>, bindResult: Option<string>) returns (err: Option<SendError>)
      modifies this`txBytes, device`transmissions
      ensures !device.bindPresent ==>
        && err == (if device.isClosed then None else Some(NoBind))
        && txBytes == old(txBytes) && device.transmissions == old(device.transmissions)
      ensures device.bindPresent && endpoint == None ==>
        && err == Some(NoKnownEndpoint)
        && txBytes == old(txBytes) && device.transmissions == old(device.transmissions)
      ensures device.bindPresent && endpoint.Some? ==>
        && device.transmissions == old(device.transmissions) + [(buffer, endpoint.value)]
        && (bindResult == None ==> err == None && txBytes == (old(txBytes) + |buffer|) % 0x1_0000_0000_0000_0000)
        && (bindResult.Some? ==> err == Some(BindFailed(bindResult.value)) && txBytes == old(txBytes))
    {
      if !device.bindPresent {
        if device.isClosed {
          return None;
        }
        return Some(NoBind);
      }
      if endpoint == None {
        return Some(NoKnownEndpoint);
      }
      device.transmissions := device.transmissions + [(buffer, endpoint.value)];
      if bindResult == None {
        txBytes := (txBytes + |buffer|) % 0x1_0000_0000_0000_0000;
        return None;
      }
      return Some(BindFailed(bindResult.value));
    }

    /** The shape the standard base64 encoding gives a 32-byte key. */
    static lemma KeyEncoding(k: Key)
      ensures |Base64.Encode(k)| == 44
      ensures Base64.Encode(k)[43] == Base64.Pad
      ensures forall i :: 0 <= i < 43 ==> Base64.Encode(k)[i] != Base64.Pad
      ensures Base64.DecodeQuantum(Base64.Encode(k)[..4], false) == Some(k[..3])
    {
      assert (|k| + 2) / 3 == 11;
      Base64.SinglePad(k);
      Base64.FirstQuantum(k);
    }

    /** How String lays out the abbreviation of a padded 44-character encoding. */
    static lemma Abbreviation(e: string)
      requires |e| == 44 && e[43] == Base64.Pad
      requires forall i :: 0 <= i < 43 ==> e[i] != Base64.Pad
      ensures var s := "peer(" + (e[0..4] + [Ellipsis] + e[39..43]) + ")";
        && |s| == 15 && s[..5] == "peer(" && s[9] == Ellipsis && s[14] == ')'
        && s[5..9] == e[..4] && s[10..14] + [Base64.Pad] == e[39..]
        && forall i :: 0 <= i < |s| ==> s[i] != Base64.Pad
    {
      var s := "peer(" + (e[0..4] + [Ellipsis] + e[39..43]) + ")";
      assert forall i :: 5 <= i < 9 ==> s[i] == e[i - 5];
      assert forall i :: 10 <= i < 14 ==> s[i] == e[i + 29];
    }

    /**
     * String: the peer's name in log lines, "peer(" + the first four and
     * the last four unpadded characters of its key's base64 + ")". The
     * length test always passes, so the name is never "peer(invalid)"; the
     * first four characters decode to the key's first three bytes, and the
     * last four are what precedes the encoding's only '='.
     */
    function String(): (s: string)
      ensures |s| == 15 && s[..5] == "peer(" && s[9] == Ellipsis && s[14] == ')'
      ensures s != "peer(invalid)"
      ensures Base64.DecodeQuantum(s[5..9], false) == Some(remoteStatic[..3])
      ensures s[10..14] + [Base64.Pad] == Base64.Encode(remoteStatic)[39..]
      ensures forall i :: 0 <= i < |s| ==> s[i] != Base64.Pad
    {
      var base64Key := Base64.Encode(remoteStatic);
      KeyEncoding(remoteStatic);
      Abbreviation(base64Key);
      var abbreviatedKey := if |base64Key| == 44 then base64Key[0..4] + [Ellipsis] + base64Key[39..43] else "invalid";
      "peer(" + abbreviatedKey + ")"
    }

    /**
     * Start: a no-op on a closed device or a running peer. Otherwise it
     * dates the last handshake initiation RekeyTimeout + 1 s back, makes
     * new inbound and outbound channels (a generation newer than any the
     * peer had), makes the staged channel only if it was never made (so
     * staged packets survive), takes one count on the encryption queue, sets
     * up the timers, and marks the peer running.
     */
    method Start(now: Time)
      requires Valid() && device.Valid()
      modifies this`isRunning, this`stoppingCount, this`handshake, this`queue, this`timersActive,
               device`encryptionOpenCount, device`runningPeers
      ensures Valid() && device.Valid()
      ensures old(device.isClosed) || old(isRunning) ==> unchanged(this, device)
      ensures !old(device.isClosed) && !old(isRunning) ==>
        && isRunning && stoppingCount == 2 && timersActive
        && queue == old(queue).Restarted()
        && handshake == old(handshake).(lastSentHandshake := now - (RekeyTimeout + Second))
        && now - handshake.lastSentHandshake > RekeyTimeout
        && device.encryptionOpenCount == old(device.encryptionOpenCount) + 1
        && device.runningPeers == old(device.runningPeers) + {this}
    {
      if device.isClosed {
        return;
      }
      if isRunning {
        return;
      }
      // stopping.Wait() returns at once, no routine being pending; then stopping.Add(2)
      stoppingCount := stoppingCount + 2;
      handshake := handshake.(lastSentHandshake := now - (RekeyTimeout + Second));
      queue := queue.Restarted();
      device.encryptionOpenCount := device.encryptionOpenCount + 1;
      device.runningPeers := device.runningPeers + {this};
      timersActive := true;
      isRunning := true;
    }

    /**
     * ZeroAndFlushAll: hands every keypair slot to DeleteKeypair and empties
     * the slots, releases the handshake's index, clears the handshake, and
     * drops the staged packets.
     */
    method ZeroAndFlushAll()
      requires Valid()
      modifies this`keypairs, this`handshake, this`queue, device`indexTable, device`deletedKeypairs
      ensures Valid()
      ensures device.deletedKeypairs
           == old(device.deletedKeypairs) + [old(keypairs.previous), old(keypairs.current), old(keypairs.next)]
      ensures keypairs == Keypairs(None, None, None)
      ensures device.indexTable == old(device.indexTable) - {old(handshake.localIndex)}
      ensures handshake == old(handshake).Clear()
      ensures queue == old(queue).Flushed()
    {
      device.deletedKeypairs := device.deletedKeypairs + [keypairs.previous, keypairs.current, keypairs.next];
      keypairs := Keypairs(None, None, None);
      device.indexTable := device.indexTable - {handshake.localIndex};
      handshake := handshake.Clear();
      queue := queue.Flushed();
    }

    /**
     * ExpireCurrentKeypairs: releases the handshake's index, clears the
     * handshake and dates its last initiation RekeyTimeout + 1 s back, and
     * exhausts the send counters of the current and next keypairs. The slots
     * stay filled and the previous keypair is not touched.
     */
    method ExpireCurrentKeypairs(now: Time)
      modifies this`handshake, device`indexTable, SendingKeypairs()
      ensures device.indexTable == old(device.indexTable) - {old(handshake.localIndex)}
      ensures handshake == old(handshake).Clear().(lastSentHandshake := now - (RekeyTimeout + Second))
      ensures keypairs == old(keypairs)
      ensures keypairs.current.Some? ==> keypairs.current.value.sendNonce == RejectAfterMessages
      ensures keypairs.next.Some? ==> keypairs.next.value.sendNonce == RejectAfterMessages
      ensures keypairs.previous.Some? && keypairs.previous.value !in old(SendingKeypairs()) ==>
                keypairs.previous.value.sendNonce == old(keypairs.previous.value.sendNonce)
    {
      device.indexTable := device.indexTable - {handshake.localIndex};
      handshake := handshake.Clear();
      handshake := handshake.(lastSentHandshake := now - (RekeyTimeout + Second));
      if keypairs.current.Some? {
        keypairs.current.value.sendNonce := RejectAfterMessages;
      }
      if keypairs.next.Some? {
        keypairs.next.value.sendNonce := RejectAfterMessages;
      }
    }

    /**
     * Stop: a no-op when the peer is not running. Otherwise it marks the
     * peer stopped, tears down its timers, closes both channels, waits for
     * the two routines, gives back its count on the encryption queue, and
     * runs ZeroAndFlushAll.
     */
    method Stop()
      requires Valid() && device.Valid()
      modifies this`isRunning, this`stoppingCount, this`timersActive, this`queue, this`keypairs, this`handshake,
               device`encryptionOpenCount, device`runningPeers, device`indexTable, device`deletedKeypairs
      ensures Valid() && device.Valid()
      ensures !old(isRunning) ==> unchanged(this, device)
      ensures old(isRunning) ==>
        && !isRunning && stoppingCount == 0 && !timersActive
        && queue == old(queue).Shut().Flushed() && queue.staged == Some([])
        && device.encryptionOpenCount == old(device.encryptionOpenCount) - 1
        && device.runningPeers == old(device.runningPeers) - {this}
        && device.deletedKeypairs
           == old(device.deletedKeypairs) + [old(keypairs.previous), old(keypairs.current), old(keypairs.next)]
        && keypairs == Keypairs(None, None, None)
        && device.indexTable == old(device.indexTable) - {old(handshake.localIndex)}
        && handshake == old(handshake).Clear()
    {
      if !isRunning {
        return;
      }
      Halt();
      ZeroAndFlushAll();
    }

    /**
     * The part of Stop before ZeroAndFlushAll: the peer is marked stopped,
     * its timers torn down, both channels closed, the two routines waited
     * for, and its count on the encryption queue given back.
     */
    method Halt()
      requires Valid() && device.Valid() && isRunning
      modifies this`isRunning, this`stoppingCount, this`timersActive, this`queue,
               device`encryptionOpenCount, device`runningPeers
      ensures Valid() && device.Valid()
      ensures !isRunning && stoppingCount == 0 && !timersActive
      ensures queue == old(queue).Shut()
      ensures device.encryptionOpenCount == old(device.encryptionOpenCount) - 1
      ensures device.runningPeers == old(device.runningPeers) - {this}
    {
      isRunning := false;
      device.runningPeers := device.runningPeers - {this};
      timersActive := false;
      queue := queue.Shut();
      // stopping.Wait(): both routines have seen their channel closed and exited
      stoppingCount := 0;
      device.encryptionOpenCount := device.encryptionOpenCount - 1;
    }

    /** SetEndpointFromPacket: learns the endpoint unless roaming is disabled. */
    method SetEndpointFromPacket(ep: Endpoint)
      modifies this`endpoint
      ensures endpoint == if disableRoaming then old(endpoint) else Some(ep)
    {
      if disableRoaming {
        return;
      }
      endpoint := Some(ep);
    }
  }
}
