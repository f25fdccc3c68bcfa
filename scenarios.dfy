/**
 * Compositions of the peer operations as callers use them: a start
 * followed by a stop, a repeated stop, and a repeated erase. Each one is
 * proved from the contracts of the operations alone.
 */
module Scenarios {
  import opened Wrappers
  import opened PeerLifecycle

  /**
   * Starting a stopped peer of an open device and stopping it again gives
   * the encryption queue its count back and leaves the set of running
   * peers as it was. The peer ends stopped, with closed channels a
   * generation newer than before, no staged packets, empty key slots and
   * a cleared handshake. Its counters and its endpoint are untouched.
   */
  method StartThenStop(peer: Peer, now: Time)
    requires peer.Valid() && peer.device.Valid() && !peer.isRunning && !peer.device.isClosed
    modifies peer`isRunning, peer`stoppingCount, peer`timersActive, peer`queue, peer`keypairs, peer`handshake,
             peer.device`encryptionOpenCount, peer.device`runningPeers, peer.device`indexTable,
             peer.device`deletedKeypairs
    ensures peer.Valid() && peer.device.Valid() && !peer.isRunning
    ensures peer.device.encryptionOpenCount == old(peer.device.encryptionOpenCount)
    ensures peer.device.runningPeers == old(peer.device.runningPeers)
    ensures peer.queue.outbound == Closed(old(peer.queue.outbound.Generation()) + 1)
    ensures peer.queue.inbound == peer.queue.outbound && peer.queue.staged == Some([])
    ensures peer.keypairs == Keypairs(None, None, None) && peer.handshake.cleared
    ensures peer.txBytes == old(peer.txBytes) && peer.endpoint == old(peer.endpoint)
  {
    peer.Start(now);
    peer.Stop();
  }

  /**
   * Stopping twice is stopping once: the second Stop finds the peer not
   * running and changes nothing, so the open count drops by one at most,
   * the key slots are handed to DeleteKeypair at most once, and the slots,
   * handshake, index table and channels are those a single Stop leaves.
   */
  method StopTwice(peer: Peer)
    requires peer.Valid() && peer.device.Valid()
    modifies peer`isRunning, peer`stoppingCount, peer`timersActive, peer`queue, peer`keypairs, peer`handshake,
             peer.device`encryptionOpenCount, peer.device`runningPeers, peer.device`indexTable,
             peer.device`deletedKeypairs
    ensures peer.Valid() && peer.device.Valid() && !peer.isRunning
    ensures peer.device.encryptionOpenCount
         == old(peer.device.encryptionOpenCount) - (if old(peer.isRunning) then 1 else 0)
    ensures peer.device.runningPeers == old(peer.device.runningPeers) - {peer}
    ensures peer.device.deletedKeypairs
         == old(peer.device.deletedKeypairs)
            + (if old(peer.isRunning) then [old(peer.keypairs.previous), old(peer.keypairs.current), old(peer.keypairs.next)]
               else [])
    ensures old(peer.isRunning) ==>
      && peer.keypairs == Keypairs(None, None, None)
      && peer.handshake == old(peer.handshake).Clear()
      && peer.device.indexTable == old(peer.device.indexTable) - {old(peer.handshake.localIndex)}
      && peer.queue == old(peer.queue).Shut().Flushed()
    ensures !old(peer.isRunning) ==>
      && peer.keypairs == old(peer.keypairs) && peer.handshake == old(peer.handshake)
      && peer.device.indexTable == old(peer.device.indexTable) && peer.queue == old(peer.queue)
  {
    peer.Stop();
    peer.Stop();
  }

  /**
   * Erasing twice: the key slots stay empty, the handshake stays cleared
   * and the staged queue empty, and the second pass hands three empty
   * slots to DeleteKeypair. Because Handshake.Clear sets the local index to
   * 0, the second pass deletes index 0 from the index table; the table
   * equals the one a single pass leaves exactly when index 0 was not
   * registered or was the peer's own index.
   */
  method ZeroAndFlushAllTwice(peer: Peer)
    requires peer.Valid()
    modifies peer`keypairs, peer`handshake, peer`queue, peer.device`indexTable, peer.device`deletedKeypairs
    ensures peer.Valid()
    ensures peer.keypairs == Keypairs(None, None, None)
    ensures peer.handshake == old(peer.handshake).Clear() && peer.queue == old(peer.queue).Flushed()
    ensures peer.device.deletedKeypairs
         == old(peer.device.deletedKeypairs)
            + [old(peer.keypairs.previous), old(peer.keypairs.current), old(peer.keypairs.next)]
            + [None, None, None]
    ensures peer.device.indexTable == old(peer.device.indexTable) - {old(peer.handshake.localIndex), 0}
    ensures (peer.device.indexTable == old(peer.device.indexTable) - {old(peer.handshake.localIndex)})
        <==> (0 !in old(peer.device.indexTable) || old(peer.handshake.localIndex) == 0)
  {
    peer.ZeroAndFlushAll();
    peer.ZeroAndFlushAll();
  }
}
