/**
 * The global stream of Lux/Stream/Look+LuxStream.swift: one `LuxStream`
 * made on demand, and the two ways of configuring it, streaming the
 * current look to a server name or tuning in to one.  The globals
 * `Look._stream`, `Look._streamObservable` and `Look.state` are the fields
 * of one object here.
 */
module LookStreams {
  import opened Wrappers
  import opened Extensions
  import opened Looks
  import opened LookCurrent
  import opened MultiPeers
  import opened Streams

  class StreamGlobals {
    /** `Look._stream`. */
    var stream: LuxStream?
    /** Whether `Look._streamObservable` holds a subscription. */
    var observerInstalled: bool
    /** `Look.state`. */
    var state: CurrentState

    /** The global stream, when there is one, keeps its invariant. */
    predicate Valid()
      reads this, stream
    {
      stream != null ==> stream.Valid()
    }

    constructor(state: CurrentState)
      ensures Valid()
      ensures stream == null && !observerInstalled && this.state == state
    {
      stream := null;
      observerInstalled := false;
      this.state := state;
    }

    /** `Look.stream()`: the existing stream, or a new one that is kept. */
    method Stream() returns (s: LuxStream)
      modifies this
      requires Valid()
      ensures Valid()
      ensures old(stream) != null ==> s == old(stream)
      ensures old(stream) == null ==>
        fresh(s) && s.config == DefaultConfig && s.multiPeer == null
        && s.connectedConfig.None? && !s.observingLook && s.connects == 0
      ensures stream == s && observerInstalled == old(observerInstalled) && state == old(state)
    {
      if stream == null {
        stream := new LuxStream();
      }
      s := stream;
    }

    /** `Look.disconnectStream()`: cancel the subscription, disconnect the
        stream and forget it, so that the next `stream()` makes a new one. */
    method DisconnectStream()
      modifies this, stream, if stream != null then {stream.multiPeer} else {}
      requires Valid()
      ensures Valid()
      ensures stream == null && !observerInstalled && state == old(state)
      ensures old(stream) != null ==>
        old(stream).multiPeer == null && old(stream).status == Disconnected
        && old(stream).tunedLook == null && old(stream).connectedConfig.None?
    {
      observerInstalled := false;
      if stream != null {
        stream.DisconnectNow();
      }
      stream := null;
    }

    /** `Look.streaming(to:)`: a new stream, configured by three assignments
        of which only the last, setting `shouldConnect`, connects. */
    method StreamingTo(server: string, session: seq<PeerId>, deviceName: string)
      modifies this, stream, if stream != null then {stream.multiPeer} else {}
      requires Valid()
      ensures Valid()
      ensures stream != null && fresh(stream)
      ensures stream.config == Config("Lux", Some(Streaming), true, Some(server))
      ensures stream.multiPeer != null && fresh(stream.multiPeer)
      ensures stream.multiPeer.serviceType == Some("lux")
      ensures stream.multiPeer.actions == [StartBrowsing, StartAdvertising]
      ensures stream.status == Status.Connecting && stream.observingLook && stream.connects == 1
      ensures !observerInstalled && state == old(state)
    {
      DisconnectStream();
      var channel := Stream();
      channel.SetConfig(channel.config.(serverName := Some(server)), state.Current(), session, deviceName);
      channel.SetConfig(channel.config.(role := Some(Streaming)), state.Current(), session, deviceName);
      channel.SetConfig(channel.config.(shouldConnect := true), state.Current(), session, deviceName);
      StreamNameOfLux();
    }

    /** `Look.tuning(from:)`: the same with the tuning role, and a throttled
        subscription that activates whatever look is tuned in. */
    method TuningFrom(server: string, session: seq<PeerId>, deviceName: string)
      modifies this, stream, if stream != null then {stream.multiPeer} else {}
      requires Valid()
      ensures Valid()
      ensures stream != null && fresh(stream)
      ensures stream.config == Config("Lux", Some(Tuning), true, Some(server))
      ensures stream.multiPeer != null && fresh(stream.multiPeer)
      ensures stream.multiPeer.serviceType == Some("lux")
      ensures stream.multiPeer.actions == [StartBrowsing, StartAdvertising]
      ensures stream.status == Status.Connecting && !stream.observingLook && stream.connects == 1
      ensures observerInstalled && state == old(state)
    {
      DisconnectStream();
      var channel := Stream();
      channel.SetConfig(channel.config.(serverName := Some(server)), state.Current(), session, deviceName);
      channel.SetConfig(channel.config.(role := Some(Tuning)), state.Current(), session, deviceName);
      channel.SetConfig(channel.config.(shouldConnect := true), state.Current(), session, deviceName);
      StreamNameOfLux();
      observerInstalled := true;
    }

    /** The tuning subscription fires: a tuned look, if there is one,
        becomes the active look; nil never replaces it. */
    method TunedLookChanged()
      modifies state
      ensures observerInstalled && stream != null && stream.tunedLook != null ==>
        state.active == stream.tunedLook
      ensures !(observerInstalled && stream != null && stream.tunedLook != null) ==>
        state.active == old(state.active)
      ensures state.base == old(state.base)
    {
      if !observerInstalled || stream == null || stream.tunedLook == null {
        return;
      }
      state.SetActive(stream.tunedLook);
    }
  }

  /** The default name "Lux" streams as "lux". */
  lemma StreamNameOfLux()
    ensures forall c: Config :: c.name == "Lux" ==> StreamName(c) == "lux"
  {
    forall c: Config | c.name == "Lux" ensures StreamName(c) == "lux" {
      assert Alphanumeric(c.name) == "Lux" by {
        AlphanumericKeepsAlphanumeric(c.name);
      }
    }
  }
}
