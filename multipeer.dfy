/**
 * The peer roster and the send path of Lux/MultiPeer/MultiPeer.swift.  The
 * Multipeer Connectivity session, browser and advertiser are outside the
 * model: what Lux asks of them is recorded as a trace of transport actions,
 * the session's list of connected peers is an input, and the delegate
 * notifications that the source queues on the main queue are returned to
 * the caller.
 */
module MultiPeers {
  import opened Wrappers
  import opened Json

  type UInt32 = n: int | 0 <= n < 0x1_0000_0000

  /** An `MCPeerID`: its identity and the display name it advertises. */
  datatype PeerId = PeerId(uid: nat, displayName: string)

  /** `MCSessionState`. */
  datatype SessionState = NotConnected | Connecting | Connected

  /** `Peer`: a peer and the last state reported for it. */
  datatype Peer = Peer(peerID: PeerId, state: SessionState)

  /** `MultiPeer.Packet`: a typed blob of data. */
  datatype Packet = Packet(data: Bytes, packetType: UInt32)

  /** What Lux asks of the session, browser and advertiser. */
  datatype Action =
    | StartBrowsing | StopBrowsing | StartAdvertising | StopAdvertising
    | Invite(peer: PeerId)
    | AcceptInvitation
    | SessionDisconnect
    | SessionSend(item: Bytes, to: seq<PeerId>)

  // ---------------------------------------------------------------------
  // The packet codec
  // ---------------------------------------------------------------------

  function EncodePacket(p: Packet): (j: Json)
    ensures j.JObj? && j.fields.Keys == {PacketKey(PacketData), PacketKey(PacketType)}
  {
    JObj(map[PacketKey(PacketData) := JData(p.data), PacketKey(PacketType) := JNum(p.packetType as real)])
  }

  /** A `UInt32` is decoded only from a whole number in range. */
  function DecodePacket(j: Json): (r: Option<Packet>)
    ensures r.Some? ==> j.JObj? && PacketKey(PacketData) in j.fields && PacketKey(PacketType) in j.fields
  {
    var dataJ :- Member(j, PacketKey(PacketData));
    var data :- AsData(dataJ);
    var typeJ :- Member(j, PacketKey(PacketType));
    var n :- AsInt(typeJ);
    if 0 <= n < 0x1_0000_0000 then Some(Packet(data, n)) else None
  }

  lemma DecodeEncodePacket(p: Packet)
    ensures DecodePacket(EncodePacket(p)) == Some(p)
  {
    var j := EncodePacket(p);
    assert j.fields[PacketKey(PacketData)] == JData(p.data);
    assert j.fields[PacketKey(PacketType)] == JNum(p.packetType as real);
  }

  /** `packet.asJSONString().data(using: .utf8)`, which always succeeds. */
  function PacketBytes(p: Packet): Bytes {
    Utf8Data(Serialize(EncodePacket(p)))
  }

  /** The receiving side: UTF-8 text that decodes as a packet. */
  function PacketFromBytes(b: Bytes): (r: Option<Packet>)
    ensures r.Some? ==> StringFromData(b).Some?
  {
    var text :- StringFromData(b);
    var j :- Parse(text);
    DecodePacket(j)
  }

  /** What one device sends, the other receives. */
  lemma PacketBytesRoundTrip(p: Packet)
    ensures PacketFromBytes(PacketBytes(p)) == Some(p)
  {
    DecodeEncodePacket(p);
  }

  // ---------------------------------------------------------------------
  // The roster
  // ---------------------------------------------------------------------

  /** `filter { $0.peerID != peerID }`. */
  function WithoutPeer(peers: seq<Peer>, id: PeerId): (r: seq<Peer>)
    ensures |r| <= |peers|
    ensures forall p :: p in r <==> p in peers && p.peerID != id
  {
    if peers == [] then []
    else (if peers[0].peerID != id then [peers[0]] else []) + WithoutPeer(peers[1..], id)
  }

  /** Removal keeps the others in their order: it distributes over concatenation. */
  lemma {:induction false} WithoutPeerAppend(a: seq<Peer>, b: seq<Peer>, id: PeerId)
    ensures WithoutPeer(a + b, id) == WithoutPeer(a, id) + WithoutPeer(b, id)
  {
    if a == [] {
      assert a + b == b;
    } else {
      assert (a + b)[1..] == a[1..] + b;
      WithoutPeerAppend(a[1..], b, id);
    }
  }

  /** A roster with no entry for the peer is left as it is. */
  lemma {:induction false} WithoutAbsentPeer(peers: seq<Peer>, id: PeerId)
    requires forall i :: 0 <= i < |peers| ==> peers[i].peerID != id
    ensures WithoutPeer(peers, id) == peers
  {
    if peers != [] {
      WithoutAbsentPeer(peers[1..], id);
    }
  }

  /** `filter { $0.peerID == peerID }.first?.state = state`: `Peer` is a
      reference type, so the first entry for the peer takes the new state. */
  function WithFirstState(peers: seq<Peer>, id: PeerId, state: SessionState): (r: seq<Peer>)
    ensures |r| == |peers|
    ensures forall i :: 0 <= i < |r| ==> r[i].peerID == peers[i].peerID
    ensures forall i :: 0 <= i < |r| && r[i] != peers[i] ==>
      r[i] == Peer(id, state) && peers[i].peerID == id && forall k :: 0 <= k < i ==> peers[k].peerID != id
  {
    if peers == [] then []
    else if peers[0].peerID == id then [peers[0].(state := state)] + peers[1..]
    else [peers[0]] + WithFirstState(peers[1..], id, state)
  }

  /** `session.connectedPeers.map { Peer(peerID: $0, state: .connected) }`. */
  function ConnectedEntries(session: seq<PeerId>): (r: seq<Peer>)
    ensures |r| == |session|
    ensures forall i :: 0 <= i < |r| ==> r[i] == Peer(session[i], Connected)
  {
    seq(|session|, i requires 0 <= i < |session| => Peer(session[i], Connected))
  }

  /** `session.connectedPeers.map { $0.displayName }`. */
  function DisplayNames(session: seq<PeerId>): (r: seq<string>)
    ensures |r| == |session|
    ensures forall i :: 0 <= i < |r| ==> r[i] == session[i].displayName
  {
    seq(|session|, i requires 0 <= i < |session| => session[i].displayName)
  }

  class MultiPeer {
    var serviceType: Option<string>
    var deviceName: Option<string>
    var availablePeers: seq<Peer>
    var connectedPeers: seq<Peer>
    /** Everything asked of the session, browser and advertiser, oldest first. */
    var actions: seq<Action>

    /** `MultiPeer()`: nothing set up, nobody known. */
    constructor()
      ensures serviceType.None? && deviceName.None?
      ensures availablePeers == [] && connectedPeers == [] && actions == []
    {
      serviceType := None;
      deviceName := None;
      availablePeers := [];
      connectedPeers := [];
      actions := [];
    }

    /** `initialize(serviceType:deviceName:)`; the device name of
        `initialize(serviceType:)` is the device's and is a parameter. */
    method Initialize(serviceType: string, deviceName: string)
      modifies this
      ensures this.serviceType == Some(serviceType) && this.deviceName == Some(deviceName)
      ensures availablePeers == old(availablePeers) && connectedPeers == old(connectedPeers)
      ensures actions == old(actions)
    {
      this.serviceType := Some(serviceType);
      this.deviceName := Some(deviceName);
    }

    /** `isConnected`. */
    predicate IsConnected()
      reads this
    {
      |connectedPeers| > 0
    }

    method StartInviting()
      modifies this
      ensures actions == old(actions) + [StartBrowsing]
      ensures unchanged(this`availablePeers, this`connectedPeers, this`serviceType, this`deviceName)
    {
      actions := actions + [StartBrowsing];
    }

    method StartAccepting()
      modifies this
      ensures actions == old(actions) + [StartAdvertising]
      ensures unchanged(this`availablePeers, this`connectedPeers, this`serviceType, this`deviceName)
    {
      actions := actions + [StartAdvertising];
    }

    /** `autoConnect`: browse, then advertise. */
    method AutoConnect()
      modifies this
      ensures actions == old(actions) + [StartBrowsing, StartAdvertising]
      ensures unchanged(this`availablePeers, this`connectedPeers, this`serviceType, this`deviceName)
    {
      StartInviting();
      StartAccepting();
    }

    method StopInviting()
      modifies this
      ensures actions == old(actions) + [StopBrowsing]
      ensures unchanged(this`availablePeers, this`connectedPeers, this`serviceType, this`deviceName)
    {
      actions := actions + [StopBrowsing];
    }

    method StopAccepting()
      modifies this
      ensures actions == old(actions) + [StopAdvertising]
      ensures unchanged(this`availablePeers, this`connectedPeers, this`serviceType, this`deviceName)
    {
      actions := actions + [StopAdvertising];
    }

    /** `stopSearching`: stop advertising, then browsing. */
    method StopSearching()
      modifies this
      ensures actions == old(actions) + [StopAdvertising, StopBrowsing]
      ensures unchanged(this`availablePeers, this`connectedPeers, this`serviceType, this`deviceName)
    {
      StopAccepting();
      StopInviting();
    }

    /** `disconnect`: leave the session and forget every peer. */
    method Disconnect()
      modifies this
      ensures actions == old(actions) + [SessionDisconnect]
      ensures availablePeers == [] && connectedPeers == [] && !IsConnected()
      ensures unchanged(this`serviceType, this`deviceName)
    {
      actions := actions + [SessionDisconnect];
      connectedPeers := [];
      availablePeers := [];
    }

    /** `end`: stop searching, then disconnect. */
    method End()
      modifies this
      ensures actions == old(actions) + [StopAdvertising, StopBrowsing, SessionDisconnect]
      ensures availablePeers == [] && connectedPeers == []
      ensures unchanged(this`serviceType, this`deviceName)
    {
      StopSearching();
      Disconnect();
    }

    /** `send(data:type:)`: one packet to the session's connected peers,
        and nothing at all while no peer is connected.  A send the session
        refuses is only logged by the source and changes nothing. */
    method SendData(data: Bytes, packetType: UInt32, session: seq<PeerId>)
      modifies this
      ensures old(IsConnected()) ==> actions == old(actions) + [SessionSend(PacketBytes(Packet(data, packetType)), session)]
      ensures !old(IsConnected()) ==> actions == old(actions)
      ensures unchanged(this`availablePeers, this`connectedPeers, this`serviceType, this`deviceName)
    {
      if IsConnected() {
        var item := PacketBytes(Packet(data, packetType));
        actions := actions + [SessionSend(item, session)];
      }
    }

    /** `send(object:type:)`: the object's JSON text as UTF-8, under the same guard. */
    method SendObject(text: JsonText, packetType: UInt32, session: seq<PeerId>)
      modifies this
      ensures old(IsConnected()) ==> actions == old(actions) + [SessionSend(PacketBytes(Packet(Utf8Data(text), packetType)), session)]
      ensures !old(IsConnected()) ==> actions == old(actions)
      ensures unchanged(this`availablePeers, this`connectedPeers, this`serviceType, this`deviceName)
    {
      if !IsConnected() {
        return;
      }
      SendData(Utf8Data(text), packetType, session);
    }

    /** The advertiser's invitation handler: every invitation is accepted. */
    method ReceivedInvitation() returns (accept: bool)
      modifies this
      ensures accept
      ensures actions == old(actions) + [AcceptInvitation]
      ensures unchanged(this`availablePeers, this`connectedPeers, this`serviceType, this`deviceName)
    {
      actions := actions + [AcceptInvitation];
      accept := true;
    }

    /** The browser found a peer: one more entry, not yet connected, even if
        the peer is listed already; then invite it. */
    method FoundPeer(id: PeerId)
      modifies this
      ensures availablePeers == old(availablePeers) + [Peer(id, NotConnected)]
      ensures actions == old(actions) + [Invite(id)]
      ensures unchanged(this`connectedPeers, this`serviceType, this`deviceName)
    {
      availablePeers := availablePeers + [Peer(id, NotConnected)];
      actions := actions + [Invite(id)];
    }

    /** The browser lost a peer: every entry for it goes. */
    method LostPeer(id: PeerId)
      modifies this
      ensures availablePeers == WithoutPeer(old(availablePeers), id)
      ensures unchanged(this`connectedPeers, this`actions, this`serviceType, this`deviceName)
    {
      availablePeers := WithoutPeer(availablePeers, id);
    }

    /** The session reports a peer's new state.  The connected roster is
        rebuilt from the session, and the delegate is told the display names
        of the connected peers. */
    method PeerChangedState(id: PeerId, state: SessionState, session: seq<PeerId>) returns (names: seq<string>)
      modifies this
      ensures state == Connected ==> availablePeers == WithoutPeer(old(availablePeers), id)
      ensures state != Connected ==> availablePeers == WithFirstState(old(availablePeers), id, state)
      ensures connectedPeers == ConnectedEntries(session)
      ensures names == DisplayNames(session)
      ensures unchanged(this`actions, this`serviceType, this`deviceName)
    {
      if state == Connected {
        availablePeers := WithoutPeer(availablePeers, id);
      } else {
        availablePeers := WithFirstState(availablePeers, id, state);
      }
      connectedPeers := ConnectedEntries(session);
      names := DisplayNames(session);
    }

    /** The session delivered data: the delegate hears of it only when it is
        a packet. */
    method ReceivedData(data: Bytes) returns (delivered: Option<Packet>)
      ensures delivered == PacketFromBytes(data)
    {
      delivered := PacketFromBytes(data);
    }
  }

  /** A peer that is found and then lost leaves no entry behind, and the
      others keep their order. */
  lemma FoundThenLost(peers: seq<Peer>, id: PeerId)
    requires forall i :: 0 <= i < |peers| ==> peers[i].peerID != id
    ensures WithoutPeer(peers + [Peer(id, NotConnected)], id) == peers
  {
    WithoutPeerAppend(peers, [Peer(id, NotConnected)], id);
    WithoutAbsentPeer(peers, id);
    assert WithoutPeer([Peer(id, NotConnected)], id) == [];
  }

  /** After a change of state the connected roster holds every peer of the
      session, each as connected, and nothing else. */
  lemma ConnectedRosterMatchesSession(session: seq<PeerId>, p: Peer)
    ensures p in ConnectedEntries(session) <==> p.state == Connected && p.peerID in session
  {
    var r := ConnectedEntries(session);
    if p.state == Connected && p.peerID in session {
      var i :| 0 <= i < |session| && session[i] == p.peerID;
      assert r[i] == p;
    }
  }
}
