/**
 * `LuxStream` (Lux/Stream/LuxStream.swift): the session that streams the
 * current look from one device to others, or tunes in to a look streamed
 * by a named server.  Its configuration drives everything: every
 * assignment to `config` commits it, connecting or disconnecting.  The
 * current look, the session's connected peers and the device name are read
 * from outside and are parameters.
 */
module Streams {
  import opened Wrappers
  import opened CoreTypes
  import opened Json
  import opened Extensions
  import opened Looks
  import opened Photons
  import opened MultiPeers

  /** `LuxStream.DefaultServer`. */
  const DefaultServer: string := "LUX"

  /** `LuxStream.LuxStreamServiceTag`. */
  const ServiceTag: string := "01"

  datatype Role = Streaming | Tuning

  function RoleRaw(r: Role): string {
    match r
    case Streaming => "streaming"
    case Tuning => "tuning"
  }

  datatype Status = Disconnected | Connecting | Connected

  function StatusRaw(s: Status): string {
    match s
    case Disconnected => "disconnected"
    case Connecting => "connecting"
    case Connected => "connected"
  }

  datatype Config = Config(name: string, role: Option<Role>, shouldConnect: bool, serverName: Option<string>)

  /** `Config()`. */
  const DefaultConfig: Config := Config("Lux", None, false, Some(DefaultServer))

  // ---------------------------------------------------------------------
  // configHash
  // ---------------------------------------------------------------------

  /** String interpolation of a `Bool`. */
  function BoolText(b: bool): string {
    if b then "true" else "false"
  }

  /** `String(describing: role?.rawValue)`. */
  function DescribedRole(r: Option<Role>): string {
    match r
    case None => "nil"
    case Some(role) => "Optional(\"" + RoleRaw(role) + "\")"
  }

  /** `configHash`: whether to connect, the role and the name; the server
      name takes no part. */
  function ConfigHash(c: Config): string {
    BoolText(c.shouldConnect) + DescribedRole(c.role) + c.name
  }

  lemma BoolTextPrefix(a: bool, b: bool, x: string, y: string)
    requires BoolText(a) + x == BoolText(b) + y
    ensures a == b && x == y
  {
    assert (BoolText(a) + x)[0] == BoolText(a)[0];
    assert (BoolText(b) + y)[0] == BoolText(b)[0];
    if a == b {
      var n := |BoolText(a)|;
      assert x == (BoolText(a) + x)[n..];
      assert y == (BoolText(b) + y)[n..];
    }
  }

  lemma DescribedRolePrefix(a: Option<Role>, b: Option<Role>, x: string, y: string)
    requires DescribedRole(a) + x == DescribedRole(b) + y
    ensures a == b && x == y
  {
    var s, t := DescribedRole(a) + x, DescribedRole(b) + y;
    assert s[0] == DescribedRole(a)[0] && t[0] == DescribedRole(b)[0];
    if a.Some? && b.Some? {
      assert s[10] == DescribedRole(a)[10] && t[10] == DescribedRole(b)[10];
    }
    if a == b {
      var n := |DescribedRole(a)|;
      assert x == s[n..] && y == t[n..];
    }
  }

  /** Two configurations have the same hash exactly when they agree on
      whether to connect, on the role and on the name. */
  lemma ConfigHashEqual(a: Config, b: Config)
    ensures ConfigHash(a) == ConfigHash(b) <==>
      a.shouldConnect == b.shouldConnect && a.role == b.role && a.name == b.name
  {
    if ConfigHash(a) == ConfigHash(b) {
      assert ConfigHash(a) == BoolText(a.shouldConnect) + (DescribedRole(a.role) + a.name);
      assert ConfigHash(b) == BoolText(b.shouldConnect) + (DescribedRole(b.role) + b.name);
      BoolTextPrefix(a.shouldConnect, b.shouldConnect, DescribedRole(a.role) + a.name, DescribedRole(b.role) + b.name);
      DescribedRolePrefix(a.role, b.role, a.name, b.name);
    }
  }

  // ---------------------------------------------------------------------
  // streamName / serviceType
  // ---------------------------------------------------------------------

  /** `prefix(n)`. */
  function Prefix(s: string, n: nat): (r: string)
    ensures |r| <= n && |r| <= |s|
    ensures r == s[..|r|]
    ensures |r| == n || r == s
  {
    if |s| <= n then s else s[..n]
  }

  /** `streamName`: the alphanumeric characters of the name, in lower case,
      at most thirteen of them. */
  function StreamName(c: Config): (r: string)
    ensures |r| <= 13
    ensures forall i :: 0 <= i < |r| ==> IsAlphanumeric(r[i]) && !IsAsciiUpper(r[i])
  {
    Prefix(Lowercased(Alphanumeric(c.name)), 13)
  }

  /** The stream name of a name made of lower-case letters and digits,
      thirteen at most, is the name itself. */
  lemma StreamNameOfPlainName(c: Config)
    requires |c.name| <= 13
    requires forall i :: 0 <= i < |c.name| ==> IsAsciiLower(c.name[i]) || IsAsciiDigit(c.name[i])
    ensures StreamName(c) == c.name
  {
    AlphanumericKeepsAlphanumeric(c.name);
  }

  /** `serviceType`: the service tag before the stream name, fifteen
      characters at most as Multipeer Connectivity requires. */
  function ServiceType(c: Config): (r: string)
    ensures 2 <= |r| <= 15 && r[..2] == ServiceTag && r[2..] == StreamName(c)
  {
    ServiceTag + StreamName(c)
  }

  // ---------------------------------------------------------------------
  // Derived predicates of a configuration
  // ---------------------------------------------------------------------

  /** `needsSeverName`. */
  predicate NeedsServerName(c: Config) {
    c.role == Some(Tuning) && c.serverName.None?
  }

  /** `serverNameIsSet`. */
  predicate ServerNameIsSet(c: Config) {
    c.role == Some(Tuning) && c.serverName.Some?
  }

  /** The two are never both true, and either one means tuning. */
  lemma ServerNamePredicates(c: Config)
    ensures !(NeedsServerName(c) && ServerNameIsSet(c))
    ensures NeedsServerName(c) || ServerNameIsSet(c) <==> c.role == Some(Tuning)
  {
  }

  /** `streamServerName`. */
  function StreamServerName(c: Config): (r: string)
    ensures c.serverName.Some? ==> r == c.serverName.value
    ensures c.serverName.None? ==> r == DefaultServer
  {
    c.serverName.GetOr(DefaultServer)
  }

  /** The packet a photon travels in: its JSON text, tagged as a string. */
  function PhotonPacket(p: Photon): Packet {
    Packet(Utf8Data(PhotonText(p)), DataTypeRaw(StringData))
  }

  /** A packet tagged as a string delivers the photon it was built from. */
  lemma PhotonPacketRoundTrip(p: Photon)
    ensures PhotonPacket(p).packetType == 1
    ensures StringFromData(PhotonPacket(p).data) == Some(PhotonText(p))
    ensures DecodePhotonText(PhotonText(p)) == Some(p)
  {
    DecodePhotonTextOf(p);
  }

  /** What the session is asked to do when a photon is streamed. */
  function Sent(p: Photon, session: seq<PeerId>): Action {
    SessionSend(PacketBytes(PhotonPacket(p)), session)
  }

  /** `icon`: the SF Symbol shown for the stream's role. */
  function Icon(c: Config): (r: string)
    ensures |r| > 0
  {
    match c.role
    case None => "waveform.circle"
    case Some(Tuning) => "waveform.circle.fill"
    case Some(Streaming) => "antenna.radiowaves.left.and.right"
  }

  /** Each role, and no role, has its own icon. */
  lemma IconDistinguishesRole(a: Config, b: Config)
    ensures Icon(a) == Icon(b) <==> a.role == b.role
  {
    var none := "waveform.circle";
    var fill := "waveform.circle.fill";
    var antenna := "antenna.radiowaves.left.and.right";
    assert |none| != |fill| && |none| != |antenna| && |fill| != |antenna|;
  }

  class LuxStream {
    var config: Config
    var connectedConfig: Option<Config>
    var multiPeer: MultiPeer?
    var status: Status
    var statusString: string
    var preferredLook: Look?
    var tunedLook: Look?
    var streamNames: seq<string>
    /** Whether `currenLookObserver` is installed. */
    var observingLook: bool
    /** How many transports this stream has set up. */
    ghost var connects: nat

    /** The stream's invariant: `connectedConfig` is only ever assigned in
        `connectIntent`, immediately before `connect()`, whose
        `disconnectNow()` sets it back to nil; outside a method it is
        always nil. */
    predicate Valid()
      reads this
    {
      connectedConfig.None?
    }

    /** `LuxStream()`: the default configuration and nothing else; the
        status string is empty until the status is first assigned. */
    constructor()
      ensures Valid()
      ensures config == DefaultConfig && connectedConfig.None? && multiPeer == null
      ensures status == Disconnected && statusString == ""
      ensures preferredLook == null && tunedLook == null && streamNames == [] && !observingLook
      ensures connects == 0
    {
      config := DefaultConfig;
      connectedConfig := None;
      multiPeer := null;
      status := Disconnected;
      statusString := "";
      preferredLook := null;
      tunedLook := null;
      streamNames := [];
      observingLook := false;
      connects := 0;
    }

    /** `status`, with its `didSet` keeping `statusString`. */
    method SetStatus(s: Status)
      modifies this
      requires Valid()
      ensures Valid()
      ensures status == s && statusString == StatusRaw(s)
      ensures config == old(config) && connectedConfig == old(connectedConfig) && multiPeer == old(multiPeer)
      ensures preferredLook == old(preferredLook) && tunedLook == old(tunedLook)
      ensures streamNames == old(streamNames) && observingLook == old(observingLook) && connects == old(connects)
    {
      status := s;
      statusString := StatusRaw(s);
    }

    /** `isDisconnected`: neither connected nor connecting. */
    predicate IsDisconnected()
      reads this
      ensures IsDisconnected() <==> !IsConnected() && status != Status.Connecting
    {
      status == Disconnected
    }

    predicate IsConnected()
      reads this
    {
      status == Status.Connected
    }

    /** `hasPreferredLook`: whether the stream sends its own look rather
        than the current one. */
    predicate HasPreferredLook()
      reads this
    {
      preferredLook != null
    }

    /** `streamingLook`. */
    function StreamingLook(current: Look): (l: Look)
      reads this
      ensures HasPreferredLook() ==> l == preferredLook
      ensures !HasPreferredLook() ==> l == current
    {
      if preferredLook != null then preferredLook else current
    }

    /** `disconnectNow`: leave the session, drop the transport, forget the
        connected configuration and the tuned look. */
    method DisconnectNow()
      modifies this, multiPeer
      ensures Valid()
      ensures multiPeer == null && connectedConfig.None? && tunedLook == null
      ensures status == Disconnected && statusString == StatusRaw(Disconnected)
      ensures old(multiPeer) != null ==>
        old(multiPeer).actions == old(multiPeer.actions) + [SessionDisconnect]
        && old(multiPeer).availablePeers == [] && old(multiPeer).connectedPeers == []
      ensures config == old(config) && preferredLook == old(preferredLook)
      ensures streamNames == old(streamNames) && observingLook == old(observingLook) && connects == old(connects)
    {
      if multiPeer != null {
        multiPeer.Disconnect();
      }
      multiPeer := null;
      connectedConfig := None;
      tunedLook := null;
      SetStatus(Disconnected);
    }

    /** `connect`: disconnect, then a new transport for the stream name,
        browsing and advertising at once. */
    method Connect(deviceName: string)
      modifies this, multiPeer
      ensures Valid()
      ensures multiPeer != null && fresh(multiPeer)
      ensures multiPeer.serviceType == Some(StreamName(config)) && multiPeer.deviceName == Some(deviceName)
      ensures multiPeer.actions == [StartBrowsing, StartAdvertising]
      ensures multiPeer.availablePeers == [] && !multiPeer.IsConnected()
      ensures connectedConfig.None? && tunedLook == null && status == Disconnected
      ensures old(multiPeer) != null ==> old(multiPeer).actions == old(multiPeer.actions) + [SessionDisconnect]
      ensures config == old(config) && preferredLook == old(preferredLook)
      ensures streamNames == old(streamNames) && observingLook == old(observingLook)
      ensures connects == old(connects) + 1
    {
      DisconnectNow();
      var mp := new MultiPeer();
      mp.Initialize(StreamName(config), deviceName);
      mp.AutoConnect();
      multiPeer := mp;
      connects := connects + 1;
    }

    /** `stream(_:)`: one photon, only over a connected transport and only
        when streaming. */
    method Stream(photon: Photon, session: seq<PeerId>)
      modifies multiPeer
      ensures multiPeer != null && old(multiPeer.IsConnected()) && config.role == Some(Streaming) ==>
        multiPeer.actions == old(multiPeer.actions) + [Sent(photon, session)]
      ensures multiPeer != null && !(old(multiPeer.IsConnected()) && config.role == Some(Streaming)) ==>
        multiPeer.actions == old(multiPeer.actions)
      ensures multiPeer != null ==>
        unchanged(multiPeer`availablePeers, multiPeer`connectedPeers, multiPeer`serviceType, multiPeer`deviceName)
    {
      if multiPeer == null || !multiPeer.IsConnected() {
        return;
      }
      if config.role != Some(Streaming) {
        return;
      }
      multiPeer.SendObject(PhotonText(photon), DataTypeRaw(StringData), session);
    }

    /** `broadcastLook`: the preferred look if there is one, else the
        current look, addressed from the stream's server name. */
    method BroadcastLook(current: Look, session: seq<PeerId>)
      modifies multiPeer
      ensures var photon := NewPhoton(StreamServerName(config), old(StreamingLook(current).data));
        multiPeer != null && old(multiPeer.IsConnected()) && config.role == Some(Streaming) ==>
          multiPeer.actions == old(multiPeer.actions) + [Sent(photon, session)]
      ensures multiPeer != null && !(old(multiPeer.IsConnected()) && config.role == Some(Streaming)) ==>
        multiPeer.actions == old(multiPeer.actions)
      ensures multiPeer != null ==>
        unchanged(multiPeer`availablePeers, multiPeer`connectedPeers, multiPeer`serviceType, multiPeer`deviceName)
    {
      var look := StreamingLook(current);
      Stream(NewPhoton(StreamServerName(config), look.data), session);
    }

    /** `connectIntent`: the source skips it when the connected
        configuration has the same hash, but under `Valid()` there is never
        a connected configuration, so it always remembers the configuration,
        connects (which forgets it again), starts or stops following the
        current look by role, and reports connecting. */
    method ConnectIntent(current: Look, session: seq<PeerId>, deviceName: string)
      modifies this, multiPeer
      requires Valid()
      ensures Valid()
      ensures
        && multiPeer != null && fresh(multiPeer)
        && multiPeer.serviceType == Some(StreamName(config))
        && multiPeer.actions == [StartBrowsing, StartAdvertising]
        && connectedConfig.None? && tunedLook == null
        && status == Status.Connecting && statusString == StatusRaw(Status.Connecting)
        && observingLook == (if config.role == Some(Streaming) then true
                             else if config.role == Some(Tuning) then false else old(observingLook))
        && connects == old(connects) + 1
        && (old(multiPeer) != null ==> old(multiPeer).actions == old(multiPeer.actions) + [SessionDisconnect])
      ensures config == old(config) && preferredLook == old(preferredLook) && streamNames == old(streamNames)
    {
      match connectedConfig {
        case Some(previous) =>
          if ConfigHash(previous) == ConfigHash(config) {
            assert false;
            return;
          }
        case None =>
      }
      connectedConfig := Some(config);
      Connect(deviceName);
      if config.role == Some(Streaming) {
        observingLook := true;
        BroadcastLook(current, session);
      } else if config.role == Some(Tuning) {
        observingLook := false;
      }
      SetStatus(Status.Connecting);
    }

    /** `commitConnection`. */
    method CommitConnection(current: Look, session: seq<PeerId>, deviceName: string)
      modifies this, multiPeer
      requires Valid()
      ensures Valid()
      ensures !config.shouldConnect ==>
        multiPeer == null && connectedConfig.None? && tunedLook == null && status == Disconnected
        && connects == old(connects)
      ensures config.shouldConnect ==>
        && multiPeer != null && fresh(multiPeer)
        && multiPeer.serviceType == Some(StreamName(config))
        && multiPeer.actions == [StartBrowsing, StartAdvertising]
        && connectedConfig.None? && tunedLook == null && status == Status.Connecting
        && connects == old(connects) + 1
        && observingLook == (if config.role == Some(Streaming) then true
                             else if config.role == Some(Tuning) then false else old(observingLook))
      ensures !config.shouldConnect ==> observingLook == old(observingLook)
      ensures old(multiPeer) != null && multiPeer != old(multiPeer) ==>
        old(multiPeer).actions == old(multiPeer.actions) + [SessionDisconnect]
      ensures config == old(config) && preferredLook == old(preferredLook) && streamNames == old(streamNames)
    {
      if config.shouldConnect {
        ConnectIntent(current, session, deviceName);
      } else {
        DisconnectNow();
      }
    }

    /** An assignment to `config`, with its `didSet`. */
    method SetConfig(c: Config, current: Look, session: seq<PeerId>, deviceName: string)
      modifies this, multiPeer
      requires Valid()
      ensures Valid()
      ensures config == c
      ensures !c.shouldConnect ==>
        multiPeer == null && connectedConfig.None? && tunedLook == null && status == Disconnected
        && connects == old(connects)
      ensures c.shouldConnect ==>
        && multiPeer != null && fresh(multiPeer)
        && multiPeer.serviceType == Some(StreamName(c))
        && multiPeer.actions == [StartBrowsing, StartAdvertising]
        && connectedConfig.None? && tunedLook == null && status == Status.Connecting
        && connects == old(connects) + 1
        && observingLook == (if c.role == Some(Streaming) then true
                             else if c.role == Some(Tuning) then false else old(observingLook))
      ensures !c.shouldConnect ==> observingLook == old(observingLook)
      ensures old(multiPeer) != null && multiPeer != old(multiPeer) ==>
        old(multiPeer).actions == old(multiPeer.actions) + [SessionDisconnect]
      ensures preferredLook == old(preferredLook) && streamNames == old(streamNames)
    {
      config := c;
      CommitConnection(current, session, deviceName);
    }

    /** `updateStatus`: connected exactly when the stream should connect and
        its transport has a connected peer; never connecting. */
    method UpdateStatus()
      modifies this
      requires Valid()
      ensures Valid()
      ensures status == (if config.shouldConnect && multiPeer != null && multiPeer.IsConnected()
                         then Status.Connected else Disconnected)
      ensures statusString == StatusRaw(status)
      ensures config == old(config) && connectedConfig == old(connectedConfig) && multiPeer == old(multiPeer)
      ensures preferredLook == old(preferredLook) && tunedLook == old(tunedLook)
      ensures streamNames == old(streamNames) && observingLook == old(observingLook) && connects == old(connects)
    {
      SetStatus(if config.shouldConnect && multiPeer != null && multiPeer.IsConnected() then Status.Connected else Disconnected);
    }

    /** `tune(_:)`: only when tuning, and only from the configured server
        (a missing server name matches nothing); the tuned look becomes the
        payload's look, or nil when the payload does not decode. */
    method Tune(photon: Photon)
      modifies this
      requires Valid()
      ensures Valid()
      ensures config.role == Some(Tuning) && config.serverName == Some(photon.serverName) ==>
        && (LookPayload(photon).None? ==> tunedLook == null)
        && (LookPayload(photon).Some? ==> tunedLook != null && fresh(tunedLook) && tunedLook.data == LookPayload(photon).value)
      ensures !(config.role == Some(Tuning) && config.serverName == Some(photon.serverName)) ==>
        tunedLook == old(tunedLook)
      ensures config == old(config) && connectedConfig == old(connectedConfig) && multiPeer == old(multiPeer)
      ensures status == old(status) && statusString == old(statusString) && preferredLook == old(preferredLook)
      ensures streamNames == old(streamNames) && observingLook == old(observingLook) && connects == old(connects)
    {
      if config.role != Some(Tuning) {
        return;
      }
      if Some(photon.serverName) != config.serverName {
        return;
      }
      var look := LookPayload(photon);
      if look.None? {
        tunedLook := null;
      } else {
        tunedLook := new Look.FromData(look.value);
      }
    }

    /** The delegate's `didReceive`: the status is recomputed first; only a
        packet tagged as a string is decoded and tuned in to. */
    method DidReceive(packet: Packet)
      modifies this
      requires Valid()
      ensures Valid()
      ensures status == (if config.shouldConnect && multiPeer != null && multiPeer.IsConnected()
                         then Status.Connected else Disconnected)
      ensures var photon := if packet.packetType == 1 && StringFromData(packet.data).Some?
                            then DecodePhotonText(StringFromData(packet.data).value) else None;
        && (photon.None? ==> tunedLook == old(tunedLook))
        && (photon.Some? && config.role == Some(Tuning) && config.serverName == Some(photon.value.serverName) ==>
              (LookPayload(photon.value).None? ==> tunedLook == null)
              && (LookPayload(photon.value).Some? ==>
                    tunedLook != null && fresh(tunedLook) && tunedLook.data == LookPayload(photon.value).value))
        && (photon.Some? && !(config.role == Some(Tuning) && config.serverName == Some(photon.value.serverName)) ==>
              tunedLook == old(tunedLook))
      ensures statusString == StatusRaw(status)
      ensures config == old(config) && connectedConfig == old(connectedConfig) && multiPeer == old(multiPeer)
      ensures preferredLook == old(preferredLook) && streamNames == old(streamNames)
      ensures observingLook == old(observingLook) && connects == old(connects)
    {
      UpdateStatus();
      if packet.packetType == DataTypeRaw(StringData) {
        var text := StringFromData(packet.data);
        if text.None? {
          return;
        }
        var photon := DecodePhotonText(text.value);
        if photon.Some? {
          Tune(photon.value);
          return;
        }
        return;
      } else if packet.packetType == DataTypeRaw(ImageData) {
      } else {
        return;
      }
    }

    /** The delegate's `connectedDevicesChanged`. */
    method ConnectedDevicesChanged(names: seq<string>)
      modifies this
      requires Valid()
      ensures Valid()
      ensures streamNames == names
      ensures status == (if config.shouldConnect && multiPeer != null && multiPeer.IsConnected()
                         then Status.Connected else Disconnected)
      ensures statusString == StatusRaw(status)
      ensures config == old(config) && connectedConfig == old(connectedConfig) && multiPeer == old(multiPeer)
      ensures tunedLook == old(tunedLook) && preferredLook == old(preferredLook)
      ensures observingLook == old(observingLook) && connects == old(connects)
    {
      streamNames := names;
      UpdateStatus();
    }

    /** The throttled observer of the current look, when installed,
        broadcasts it. */
    method CurrentLookChanged(current: Look, session: seq<PeerId>)
      modifies multiPeer
      ensures !observingLook && multiPeer != null ==> multiPeer.actions == old(multiPeer.actions)
      ensures var photon := NewPhoton(StreamServerName(config), StreamingLook(current).data);
        observingLook && multiPeer != null && old(multiPeer.IsConnected()) && config.role == Some(Streaming) ==>
          multiPeer.actions == old(multiPeer.actions) + [Sent(photon, session)]
      ensures multiPeer != null && !(observingLook && old(multiPeer.IsConnected()) && config.role == Some(Streaming)) ==>
        multiPeer.actions == old(multiPeer.actions)
      ensures multiPeer != null ==>
        unchanged(multiPeer`availablePeers, multiPeer`connectedPeers, multiPeer`serviceType, multiPeer`deviceName)
    {
      if observingLook {
        BroadcastLook(current, session);
      }
    }
  }
}
