/** The signal handling of the fan's broadcast view: decoding an inbound
    signal, the producer-only dispatch on its type, the status change with
    its ordered side effects, and the count of streams the view lays out.
    Calls into the media service and the store are recorded as `Effect`s. */
module Fan {
  import opened JsValues

  /** The status of a broadcast event. */
  datatype Status = NotStarted | Preshow | Live | Closed

  /** A snapshot of the event record the view holds. */
  datatype EventRecord = EventRecord(status: Status, name: string, endImage: string)

  /** An observable step, in the order it happens. */
  datatype Effect =
    | ShowCountdown                          // showCountdown(): starts the countdown
    | Disconnect                             // disconnect() of the media session
    | ToggleLocalVideo(enable: bool)         // toggleLocalVideo(enable)
    | ToggleLocalAudio(enable: bool)         // toggleLocalAudio(enable)
    | ChangeVolume(userType: Option<JsValue>, volume: Option<JsValue>, notify: bool)
    | WriteStatus(status: Status)            // the in-place write to the shared event record
    | ChangeEventStatus(event: EventRecord)  // changeEventStatus(eventData): persists the event

  /** How a call ends: it returns, or it throws. */
  datatype Outcome = Returned | Threw(error: ErrorKind)

  /** What one call does: its effects, the event record afterwards, and how it ended. */
  datatype Step = Step(effects: seq<Effect>, event: Option<EventRecord>, outcome: Outcome)

  /** The sender's connection; `data` holds the sender's JSON metadata. */
  datatype Connection = Connection(data: Option<WireText>)

  /** An inbound signal: its type tag, its optional JSON payload, and its
      sender, which is absent (null) for a signal the server sends. */
  datatype Signal = Signal(signalType: string, data: Option<WireText>, from: Option<Connection>)

  /** The decoded payload and whether the sender declared itself a producer. */
  datatype Decoded = Decoded(payload: JsValue, fromProducer: bool)

  const GoLiveTag := "signal:goLive"
  const VideoOnOffTag := "signal:videoOnOff"
  const MuteAudioTag := "signal:muteAudio"
  const ChangeVolumeTag := "signal:changeVolume"
  const ChatMessageTag := "signal:chatMessage"
  const PrivateCallTag := "signal:privateCall"
  const EndPrivateCallTag := "signal:endPrivateCall"
  const OpenChatTag := "signal:openChat"
  const FinishEventTag := "signal:finishEvent"

  /** The four reserved chat and private-call tags share the finishEvent case. */
  predicate ClosingTag(t: string)
  {
    t == ChatMessageTag || t == PrivateCallTag || t == EndPrivateCallTag
    || t == OpenChatTag || t == FinishEventTag
  }

  /** The tags the listener has a case for. */
  predicate Recognised(t: string)
  {
    t == GoLiveTag || t == VideoOnOffTag || t == MuteAudioTag || t == ChangeVolumeTag
    || ClosingTag(t)
  }

  /** `v[key]` where the read does not throw: an own field, or undefined. */
  function Field(v: JsValue, key: string): Option<JsValue>
  {
    match Get(v, key)
    case Ok(p) => p
    case Err(_) => None
  }

  /** The sender metadata parses to a value whose `userType` can be read. */
  predicate SenderReadable(sig: Signal)
  {
    sig.from.Some? && sig.from.value.data.Some? && sig.from.value.data.value.Json?
    && !sig.from.value.data.value.value.Null?
  }

  /** Decoding at the head of the listener: the payload is `{}` when `data` is
      absent or empty, while the sender metadata is always parsed, so a
      missing or malformed `from.data` throws. */
  function Decode(sig: Signal): (r: Result<Decoded, ErrorKind>)
    ensures r.Ok? <==> sig.data != Some(Garbled) && SenderReadable(sig)
    ensures sig.data == Some(Garbled) ==> r == Err(SyntaxError)
    ensures r.Ok? && !Truthy(sig.data) ==> r.value.payload == EmptyObject
    ensures r.Ok? && Truthy(sig.data) ==> sig.data == Some(Json(r.value.payload))
    ensures r.Ok? ==>
      (r.value.fromProducer <==>
         Field(sig.from.value.data.value.value, "userType") == Some(Str("producer")))
  {
    var signalData := if Truthy(sig.data) then Parse(sig.data) else Ok(EmptyObject);
    if signalData.Err? then Err(signalData.error)
    else if sig.from.None? then Err(TypeError)
    else
      var fromData := Parse(sig.from.value.data);
      if fromData.Err? then Err(fromData.error)
      else
        var userType := Get(fromData.value, "userType");
        if userType.Err? then Err(userType.error)
        else Ok(Decoded(signalData.value, IsString(userType.value, "producer")))
  }

  /** The signal decodes and its sender declared itself a producer. */
  predicate Authoritative(sig: Signal)
  {
    Decode(sig).Ok? && Decode(sig).value.fromProducer
  }

  /** The number of persistence calls among `effects`. */
  function PersistCount(effects: seq<Effect>): nat
  {
    if effects == [] then 0
    else (if effects[0].ChangeEventStatus? then 1 else 0) + PersistCount(effects[1..])
  }

  /** `changeStatus(newStatus)`: the countdown for 'live' or the disconnect for
      'closed', then the in-place status write, then exactly one persistence
      call with the updated record. With no event record the write throws
      after the countdown or disconnect has already fired. */
  function ChangeStatusModel(newStatus: Status, ev: Option<EventRecord>): (r: Step)
    ensures ShowCountdown in r.effects <==> newStatus == Live
    ensures Disconnect in r.effects <==> newStatus == Closed
    ensures |r.effects| ==
      (if newStatus == Live || newStatus == Closed then 1 else 0) + (if ev.Some? then 2 else 0)
    ensures forall i, j :: 0 <= i < j < |r.effects| ==>
      !(r.effects[j] == ShowCountdown || r.effects[j] == Disconnect)
      || r.effects[i] == ShowCountdown || r.effects[i] == Disconnect
    ensures ev.Some? ==>
      && r.outcome == Returned
      && r.event == Some(EventRecord(newStatus, ev.value.name, ev.value.endImage))
      && |r.effects| >= 2
      && r.effects[|r.effects| - 2] == WriteStatus(newStatus)
      && r.effects[|r.effects| - 1] == ChangeEventStatus(r.event.value)
      && PersistCount(r.effects) == 1
    ensures ev.None? ==>
      r.outcome == Threw(TypeError) && r.event == None && PersistCount(r.effects) == 0
      && forall e :: e in r.effects ==> !e.WriteStatus?
  {
    var before := (if newStatus == Live then [ShowCountdown] else [])
                  + (if newStatus == Closed then [Disconnect] else []);
    assert PersistCount(before) == 0 by {
      if before != [] { assert PersistCount(before[1..]) == 0; }
    }
    match ev
    case None => Step(before, None, Threw(TypeError))
    case Some(e) =>
      var e' := e.(status := newStatus);
      var effects := before + [WriteStatus(newStatus), ChangeEventStatus(e')];
      PersistCountAppend(before, [WriteStatus(newStatus), ChangeEventStatus(e')]);
      assert PersistCount([ChangeEventStatus(e')]) == 1;
      Step(effects, Some(e'), Returned)
  }

  lemma {:induction false} PersistCountAppend(a: seq<Effect>, b: seq<Effect>)
    ensures PersistCount(a + b) == PersistCount(a) + PersistCount(b)
  {
    if a == [] {
      assert a + b == b;
    } else {
      assert (a + b)[1..] == a[1..] + b;
      PersistCountAppend(a[1..], b);
    }
  }

  /** The effect of a producer's media-control case, or the TypeError of
      reading a field of a null payload. */
  function MediaCase(ev: Option<EventRecord>, payload: JsValue, key: string, effect: Option<JsValue> -> Effect): Step
  {
    match Get(payload, key)
    case Err(k) => Step([], ev, Threw(k))
    case Ok(p) => Step([effect(p)], ev, Returned)
  }

  /** `signalListener(signal)` on the view whose event record is `ev`. */
  function Listen(ev: Option<EventRecord>, sig: Signal): (r: Step)
    ensures Decode(sig).Err? ==> r == Step([], ev, Threw(Decode(sig).error))
    ensures Decode(sig).Ok? && !Decode(sig).value.fromProducer ==> r == Step([], ev, Returned)
    ensures !Recognised(sig.signalType) ==>
      r.effects == [] && r.event == ev && (Decode(sig).Ok? ==> r.outcome == Returned)
    ensures r.event != ev || r.effects != [] ==> Authoritative(sig) && Recognised(sig.signalType)
    ensures r.event != ev ==> sig.signalType == GoLiveTag || ClosingTag(sig.signalType)
    ensures Authoritative(sig) && sig.signalType == GoLiveTag ==> r == ChangeStatusModel(Live, ev)
    ensures Authoritative(sig) && ClosingTag(sig.signalType) ==> r == ChangeStatusModel(Closed, ev)
    ensures Authoritative(sig) && sig.signalType == VideoOnOffTag ==>
      var p := Decode(sig).value.payload;
      r.event == ev &&
      if p.Null? then r.effects == [] && r.outcome == Threw(TypeError)
      else r.effects == [ToggleLocalVideo(Field(p, "video") == Some(Str("on")))] && r.outcome == Returned
    ensures Authoritative(sig) && sig.signalType == MuteAudioTag ==>
      var p := Decode(sig).value.payload;
      r.event == ev &&
      if p.Null? then r.effects == [] && r.outcome == Threw(TypeError)
      else r.effects == [ToggleLocalAudio(Field(p, "mute") == Some(Str("off")))] && r.outcome == Returned
    ensures Authoritative(sig) && sig.signalType == ChangeVolumeTag ==>
      var p := Decode(sig).value.payload;
      r.event == ev &&
      if p.Null? then r.effects == [] && r.outcome == Threw(TypeError)
      else r.effects == [ChangeVolume(Field(p, "userType"), Field(p, "volume"), true)] && r.outcome == Returned
  {
    match Decode(sig)
    case Err(k) => Step([], ev, Threw(k))
    case Ok(Decoded(payload, fromProducer)) =>
      var t := sig.signalType;
      var quiet := Step([], ev, Returned);
      if t == GoLiveTag then
        if fromProducer then ChangeStatusModel(Live, ev) else quiet
      else if t == VideoOnOffTag then
        if fromProducer then MediaCase(ev, payload, "video", p => ToggleLocalVideo(IsString(p, "on"))) else quiet
      else if t == MuteAudioTag then
        if fromProducer then MediaCase(ev, payload, "mute", p => ToggleLocalAudio(IsString(p, "off"))) else quiet
      else if t == ChangeVolumeTag then
        if fromProducer then
          match Get(payload, "userType")
          case Err(k) => Step([], ev, Threw(k))
          case Ok(userType) =>
            MediaCase(ev, payload, "volume", volume => ChangeVolume(userType, volume, true))
        else quiet
      else if ClosingTag(t) then
        if fromProducer then ChangeStatusModel(Closed, ev) else quiet
      else
        quiet
  }

  /** The store's `meta.subscriber.total` after `parseInt`; `None` is NaN. */
  datatype Meta = Meta(subscriberTotal: Option<int>)

  /** The broadcast state in the store; `meta` is absent until the media
      session reports it. */
  datatype BroadcastState = BroadcastState(meta: Option<Meta>)

  /** A stream count, or NaN when the subscriber total did not parse. */
  datatype StreamCount = Streams(n: int) | NaN

  /** The number of streams the view lays out: the subscribed remote streams
      plus the local one, or just the local one before any metadata. */
  function TotalStreams(state: Option<BroadcastState>): (r: StreamCount)
    ensures r == NaN <==> state.Some? && state.value.meta.Some? && state.value.meta.value.subscriberTotal.None?
    ensures state.None? || state.value.meta.None? ==> r == Streams(1)
    ensures r.Streams? && state.Some? && state.value.meta.Some? ==>
      r.n - 1 == state.value.meta.value.subscriberTotal.value
    ensures r.Streams? && (state.Some? && state.value.meta.Some? ==> state.value.meta.value.subscriberTotal.value >= 0)
      ==> r.n >= 1
  {
    if state.Some? && state.value.meta.Some? then
      match state.value.meta.value.subscriberTotal
      case Some(total) => Streams(total + 1)
      case None => NaN
    else
      Streams(1)
  }

  /** The event record the store shares with the view; `changeStatus` writes
      its `status` in place. */
  class EventData {
    var status: Status
    var name: string
    var endImage: string

    constructor (status: Status, name: string, endImage: string)
      ensures Record() == EventRecord(status, name, endImage)
    {
      this.status := status;
      this.name := name;
      this.endImage := endImage;
    }

    function Record(): EventRecord
      reads this
    {
      EventRecord(status, name, endImage)
    }
  }

  /** The fan's view: the event record from its props (null before the event
      is loaded) and the log of the calls it has made. */
  class FanView {
    var eventData: EventData?
    var log: seq<Effect>

    constructor (eventData: EventData?)
      ensures this.eventData == eventData && log == []
    {
      this.eventData := eventData;
      log := [];
    }

    function Event(): Option<EventRecord>
      reads this, eventData
    {
      if eventData == null then None else Some(eventData.Record())
    }

    method ChangeStatus(newStatus: Status) returns (outcome: Outcome)
      modifies this`log, eventData
      ensures eventData == old(eventData)
      ensures log == old(log) + ChangeStatusModel(newStatus, old(Event())).effects
      ensures Event() == ChangeStatusModel(newStatus, old(Event())).event
      ensures outcome == ChangeStatusModel(newStatus, old(Event())).outcome
    {
      if newStatus == Live {
        log := log + [ShowCountdown];
      }
      if newStatus == Closed {
        log := log + [Disconnect];
      }
      if eventData == null {
        return Threw(TypeError);
      }
      eventData.status := newStatus;
      log := log + [WriteStatus(newStatus)];
      log := log + [ChangeEventStatus(eventData.Record())];
      outcome := Returned;
    }

    method SignalListener(sig: Signal) returns (outcome: Outcome)
      modifies this`log, eventData
      ensures eventData == old(eventData)
      ensures log == old(log) + Listen(old(Event()), sig).effects
      ensures Event() == Listen(old(Event()), sig).event
      ensures outcome == Listen(old(Event()), sig).outcome
    {
      var decoded := Decode(sig);
      if decoded.Err? {
        return Threw(decoded.error);
      }
      var signalData, fromProducer := decoded.value.payload, decoded.value.fromProducer;
      var t := sig.signalType;
      outcome := Returned;
      if t == GoLiveTag {
        if fromProducer {
          outcome := ChangeStatus(Live);
        }
      } else if t == VideoOnOffTag {
        if fromProducer {
          var video := Get(signalData, "video");
          if video.Err? {
            return Threw(video.error);
          }
          log := log + [ToggleLocalVideo(IsString(video.value, "on"))];
        }
      } else if t == MuteAudioTag {
        if fromProducer {
          var mute := Get(signalData, "mute");
          if mute.Err? {
            return Threw(mute.error);
          }
          log := log + [ToggleLocalAudio(IsString(mute.value, "off"))];
        }
      } else if t == ChangeVolumeTag {
        if fromProducer {
          var userType := Get(signalData, "userType");
          if userType.Err? {
            return Threw(userType.error);
          }
          // the read of `userType` succeeded, so the payload is not null
          var volume := Get(signalData, "volume").value;
          log := log + [ChangeVolume(userType.value, volume, true)];
        }
      } else if ClosingTag(t) {
        if fromProducer {
          outcome := ChangeStatus(Closed);
        }
      }
    }
  }
}
