// Peers and the states of their connection: peers.rs. Times, ids of the latest packet and the
// round-trip time are carried by the source but read nowhere, so they are not modelled.
module Peers {
  import opened Packets
  import opened Reassembly

  datatype Peer<+C> = Peer(sequenceTracker: Sequence, remoteAck: nat, localAck: nat, address: SocketAddr, connection: C) {
    function Bump(): Peer<C> {
      this.(sequenceTracker := sequenceTracker + 1)
    }

    // What every received packet does to the two ack trackers.
    function Hear(p: Packet<Received>): Peer<C> {
      this.(remoteAck := p.sequence, localAck := p.ack)
    }

    // The peer without what is particular to its state.
    function Link(): Peer<()> {
      Peer(sequenceTracker, remoteAck, localAck, address, ())
    }
  }

  datatype Requesting = Requesting(attempts: nat)
  datatype Awaiting = Awaiting(attempts: nat)
  datatype Connected = Connected(connectionId: ConnectionId, reassembler: Reassembler)

  type ConnectedPeers = map<ConnectionId, Peer<Connected>>

  function NewPeer(address: SocketAddr, remoteAck: nat): Peer<Requesting> {
    Peer(1, remoteAck, 0, address, Requesting(0))
  }

  function AwaitConnectionAck(p: Peer<Requesting>): Peer<Awaiting> {
    Peer(p.sequenceTracker, p.remoteAck, p.localAck, p.address, Awaiting(0))
  }

  function Connect(p: Peer<Awaiting>, connectionId: ConnectionId): Peer<Connected> {
    Peer(p.sequenceTracker, p.remoteAck, p.localAck, p.address, Connected(connectionId, map[]))
  }

  // Protocol<Server>::poll over all connected peers: each one's reassembler is polled on its own.
  ghost predicate PolledPeers(c: ConnectedPeers, now: nat, c': ConnectedPeers)
    requires ReassemblersKeyed(c)
  {
    && c'.Keys == c.Keys
    && forall id :: id in c ==> PolledPeer(c[id], now, c'[id])
  }

  ghost predicate PolledPeer(peer: Peer<Connected>, now: nat, peer': Peer<Connected>)
    requires WellKeyed(peer.connection.reassembler)
  {
    && Evicts(peer.connection.reassembler, now, peer'.connection.reassembler)
    && peer' == peer.(connection := peer.connection.(reassembler := peer'.connection.reassembler))
  }

  ghost predicate ReassemblersKeyed(c: ConnectedPeers) {
    forall id :: id in c ==> WellKeyed(c[id].connection.reassembler)
  }

  method PollPeer(peer: Peer<Connected>, now: nat) returns (peer': Peer<Connected>)
    requires WellKeyed(peer.connection.reassembler)
    ensures PolledPeer(peer, now, peer')
  {
    var reassembler := Poll(peer.connection.reassembler, now);
    peer' := peer.(connection := peer.connection.(reassembler := reassembler));
  }

  method PollPeers(c: ConnectedPeers, now: nat) returns (c': ConnectedPeers)
    requires ReassemblersKeyed(c)
    ensures PolledPeers(c, now, c')
  {
    c' := c;
    var ids := c.Keys;
    while ids != {}
      invariant ids <= c.Keys == c'.Keys
      invariant forall id :: id in ids ==> c'[id] == c[id]
      invariant forall id :: id in c && id !in ids ==> PolledPeer(c[id], now, c'[id])
      decreases |ids|
    {
      var id :| id in ids;
      ids := ids - {id};
      var peer := PollPeer(c[id], now);
      c' := c'[id := peer];
    }
  }
}
