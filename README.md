# wireguard-go peer lifecycle, in Dafny

This project models the per-peer lifecycle of wireguard-go's tunnel device
(`device/peer.go`) and proves properties of it. A `Device` holds the peers
in a key map, keyed by the peers' Curve25519 public keys, and holds an index
table of handshake indices. A `Peer` goes through these steps:

- it is admitted by `NewPeer`;
- `Start` makes new inbound and outbound channels, makes the staged
  channel only if it was never made, and takes a count on the device's
  shared encryption queue;
- `Stop` closes its channels, gives the count back and erases its session
  (`ZeroAndFlushAll`);
- its current keys can be forced to expire (`ExpireCurrentKeypairs`);
- it sends buffers to its endpoint (`SendBuffer`);
- it learns that endpoint from incoming packets unless roaming is disabled
  (`SetEndpointFromPacket`);
- it names itself in log lines from an abbreviated base64 encoding of its
  key (`String`).

Files:

- `wrappers.dfy`: `Option` and `Result`. They stand for Go's nil values
  and for its `(value, error)` returns.
- `base64.dfy`: the standard base64 encoding of section 4 of RFC 4648, with
  `=` padding, which `String` relies on. It also holds a reference decoder
  and a proof that decoding inverts encoding. It proves the length of every
  encoding, and that a length leaving two bytes over gives exactly one
  `=`, in the last place; `Peer.KeyEncoding` in `peer.dfy` applies this to
  a 32-byte key (44 characters).
- `peer.dfy`: the lifecycle, in module `PeerLifecycle`. It has the
  constants, the value types and the classes `Keypair`, `Device` and `Peer`.
  Every method is one atomic update of the fields. Its `ensures` state
  the whole new state, and `modifies` names each field it may change.
  - `Peer.Valid` is the peer invariant. A running peer has open inbound and
    outbound channels, a staged channel, two routines pending and armed
    timers. A stopped peer has no open inbound or outbound channel, no
    routine pending and no timers; it may keep its staged channel.
  - `Device.Valid` is the device invariant. The key map stays within
    `MaxPeers`, `empty` tells whether the map is empty, and each peer is
    entered under its own key. Every running peer holds a count on the
    encryption queue.
  - `Start`, `Stop` and `NewPeer` preserve both invariants, and
    `ZeroAndFlushAll` preserves the peer invariant, each by its own
    `ensures`. `ExpireCurrentKeypairs`, `SendBuffer` and
    `SetEndpointFromPacket` do not write the fields the invariants read.
- `scenarios.dfy`: compositions proved from the operations' contracts. They
  show that `Start` then `Stop` restores the encryption count, and that two
  `Stop`s leave the state one `Stop` leaves. They also show what a second
  `ZeroAndFlushAll` does.

The constants come from wireguard-go's own constant files. `MaxPeers` is
1 << 16. `RekeyTimeout` is 5 s. `RejectAfterMessages` is 2^64 − 2^13 − 1.
Time is an integer count of nanoseconds, and the current time is a
parameter.

`Handshake.Clear` lives outside `device/peer.go`. It is modelled as
wireguard-go writes it: it zeroes the handshake secrets and also sets the
local index to 0, which is also the local index of a peer that never
began a handshake. So `ZeroAndFlushAll` on such a peer (a `Stop` right
after `Start`, say), and any second `ZeroAndFlushAll`, deletes index 0
from the index table. That entry may belong to another peer, whose random
index happened to be 0. `Scenarios.ZeroAndFlushAllTwice` states the
consequence exactly: two passes leave the table one pass leaves if and only
if index 0 was not registered, or was the peer's own index. Away from that
entry, the second pass changes only the `DeleteKeypair` log.

## Model

| member | source | states |
|---|---|---|
| Base64.Encode | device/peer.go:145 | The standard encoding of n bytes has 4·⌈n/3⌉ characters. |
| Base64.DecodeEncode | device/peer.go:145 | Decoding the encoding of any byte string gives that byte string back, so the encoding is injective and loses nothing. |
| Base64.SinglePad | device/peer.go:145 | When the length leaves two bytes over, as 32 does, the encoding's last character is `=` and no other character is. |
| Base64.FirstQuantum | device/peer.go:147-148 | For more than three bytes, the first four characters are the encoding of the first three bytes and decode back to them. |
| Base64.QuantumRoundTrip | device/peer.go:145 | Four characters from three bytes decode to exactly those three bytes. |
| PeerLifecycle.Peer.KeyEncoding | device/peer.go:145-147 | A 32-byte key encodes to 44 characters. Index 43 is the only `=`. The first four characters decode to the key's first three bytes. |
| PeerLifecycle.Peer.Abbreviation | device/peer.go:146-150 | Given a 44-character encoding with its only `=` last, the name is 15 characters: `peer(`, four characters, `…`, four characters, `)`. The first four are the encoding's first four. The last four are those just before the pad. No character is `=`. |
| PeerLifecycle.Peer.String | device/peer.go:144-151 | The name of a peer is never `peer(invalid)`, because a key's encoding always passes the 44-character test. It has the shape above. Its first four key characters decode to the key's first three bytes. Its last four, followed by `=`, are the encoding's final five characters. |
| PeerLifecycle.Device.NewPeer | device/peer.go:64-115 | The checks run in order: device closed, then `len(keyMap) >= MaxPeers`, then a duplicate key, and the call succeeds exactly when all three checks pass. A duplicate key at capacity therefore reports too many peers. Any failure leaves the key map, `empty` and the encryption count as they were. On success the map gains exactly `pk ↦ peer`. The new peer has remote key `pk`, no endpoint, empty key slots and zero counters. It runs if and only if the device is up. That start gives it first-generation open channels and makes the staged channel. It also dates the last handshake initiation RekeyTimeout + 1 s back and raises the encryption count by one. Both invariants hold afterwards. |
| PeerLifecycle.Device.Admit | device/peer.go:80-106 | Past the checks, a new stopped peer is entered under its key and `empty` becomes false. The device invariant is kept. |
| PeerLifecycle.Peer.constructor | device/peer.go:82-87 | A new peer has the zero value in every field, as `new(Peer)` gives. Its device and remote key are set. It satisfies the peer invariant. |
| PeerLifecycle.Peer.SendBuffer | device/peer.go:117-142 | With no bind, it returns no error while the device is closed and "no bind" otherwise. With no endpoint it returns "no known endpoint for peer". Otherwise it attempts exactly one transmission, to the peer's endpoint. The tx counter grows by the buffer's length, mod 2^64, only when the bind reports success. On failure the bind's error is returned. When there is no bind or no endpoint, nothing is sent and the counter is unchanged. |
| PeerLifecycle.Peer.Start | device/peer.go:153-192 | A closed device or a running peer leaves everything unchanged. Otherwise: the peer runs, with two routines pending and timers armed. Its inbound and outbound channels are open and one generation newer than any before. Its staged channel is made only if it never was, so its contents survive. The last handshake initiation is dated RekeyTimeout + 1 s back, so a handshake is due at once. The encryption count grows by exactly one. Both invariants are kept. |
| PeerLifecycle.Peer.Stop | device/peer.go:240-258 | A stopped peer leaves everything unchanged. Otherwise: the peer stops, with no routine pending and no timers. Both channels are closed. The encryption count falls by exactly one. Then ZeroAndFlushAll's effects follow: the old slots go to DeleteKeypair, the slots are emptied, the old local index leaves the index table, the handshake is cleared and the staged queue is empty. Both invariants are kept. |
| PeerLifecycle.Peer.Halt | device/peer.go:244-255 | The part of Stop before ZeroAndFlushAll closes both channels, waits out the routines, stops the timers and gives back exactly one encryption count. Both invariants are kept. |
| PeerLifecycle.Peer.ZeroAndFlushAll | device/peer.go:194-218 | The previous, current and next keypairs are handed to DeleteKeypair in that order, and all three slots become nil. The index table loses exactly the old local index, and every other entry is unchanged, apart from the keypairs' own indices, whose release by DeleteKeypair is not modelled (see Left out). The handshake is cleared. The staged queue is emptied, and a staged channel never made stays unmade. The peer invariant is kept. |
| PeerLifecycle.Peer.ExpireCurrentKeypairs | device/peer.go:220-238 | The index table loses exactly the old local index. The handshake is cleared and its last initiation dated RekeyTimeout + 1 s back. The current and next keypairs, when present, have their send counter set to RejectAfterMessages. The previous keypair's counter is unchanged, unless that keypair is also current or next. No slot changes. |
| PeerLifecycle.Peer.SetEndpointFromPacket | device/peer.go:260-267 | With roaming disabled the endpoint is unchanged. Otherwise it becomes the packet's endpoint. No other field changes. |
| Scenarios.StartThenStop | device/peer.go:153-258 | Start then Stop on a stopped peer of an open device restores the encryption count and the set of running peers. It leaves the peer stopped, with closed channels one generation newer, no staged packets, empty slots and a cleared handshake. Counters and endpoint are untouched. |
| Scenarios.StopTwice | device/peer.go:244-246 | Two Stops are one Stop. The count falls by at most one, and the slots are handed to DeleteKeypair at most once. On a running peer, the slots end empty, the handshake is cleared once, the index table loses only the old local index, and the channels are closed and flushed as one Stop leaves them. On a stopped peer, the slots, handshake, index table and channels are unchanged. |
| Scenarios.ZeroAndFlushAllTwice | device/peer.go:194-218 | After two passes the slots are empty, the handshake is as one Clear leaves it, and the staged queue is as one flush leaves it. The second pass logs three nils. The index table loses the old index and index 0. It equals the one-pass table if and only if index 0 was not registered or was the peer's own index. |

## Left out

- Locks, atomics and the RWMutexes are left out, and every operation is modelled as one atomic update. In the source, `Start` (the `isClosed` test at line 155 before `queue.Lock` at line 160), `NewPeer` (the `isClosed` test at line 65 before `peers.Lock` at line 73), `SetEndpointFromPacket` (the `disableRoaming` test at line 261 before the peer lock at line 264) and `ZeroAndFlushAll` (the keypairs, handshake and flush steps at lines 200-207, 212-215 and 217) test or update state in several separately locked steps. The interleavings the locks allow between those steps are not modelled.
- Goroutines are left out. `RoutineSequentialSender`/`RoutineSequentialReceiver` and the blocking `stopping.Wait()` are concurrency. The WaitGroup is the counter `stoppingCount` (2 after Start, 0 after Stop), and the draining and ordering of the workers are not modelled.
- Channels are left out as values. A channel is absent, open or closed, with a generation standing for a fresh `make`. Capacity, blocking and the in-flight elements of the inbound and outbound channels are not modelled. The staged channel is the sequence of packets it holds.
- `cookieGenerator.Init(pk)` (line 86) is not modelled. The cookie state is outside the lifecycle.
- The Diffie-Hellman precomputation `sharedSecret` (line 98) is not modelled, because it is cryptography.
- `bind.Send` (line 137) is network I/O. Its answer is the parameter `bindResult`, and each attempt is recorded in the ghost log `transmissions`.
- `DeleteKeypair` is a ghost log of the keypairs handed to it. Its own effect, releasing the keypair's index from the index table, lives outside this file and is not modelled.
- `Handshake.Clear` is modelled only by its effects on the fields used here: the `cleared` flag, and the local index becoming 0. The handshake's key material is not modelled.
- `timersInit`/`timersStop` are the single flag `timersActive`. The individual timers are not modelled.
- `time.Now()` is the parameter `now`, in nanoseconds.
- Logging (`log.Verbosef`) is not modelled, because it has no effect on the state.
- The fields `persistentKeepaliveInterval`, `firstTrieEntry`, `rxBytes` and `lastHandshakeNano` are not modelled; no operation of this file reads or writes them, except the zero values `new(Peer)` gives. The timer details and the handshake state beyond the fields above are not modelled either; this file writes them only through `timersInit`/`timersStop`, the `sharedSecret` precomputation and `Handshake.Clear`, abstracted above.
- PeerLifecycle.Peer.constructor sets the remote static key when the peer is made. Go sets `handshake.remoteStatic` a few lines later (line 99). Nothing can observe the peer between those points, so the key is a `const` of the peer.
- PeerLifecycle.Device.NewPeer makes the peer after the duplicate-key check, not before it (line 82). Making a peer has no observable effect, so the order of allocation is not modelled.
- PeerLifecycle.Peer.String builds the name from characters, with `…` as one character. Go's string holds that character as its three UTF-8 bytes.
- MaxPeers, RekeyTimeout and RejectAfterMessages are defined in wireguard-go files that are not part of this model. Their values are written out here.
- Closing the device, which gives back the encryption queue's own count, is not part of this file. `Device.Valid` therefore bounds the count only from below by the number of running peers.
