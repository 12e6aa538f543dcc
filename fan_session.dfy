/** A fan session: the listener invoked once per delivered signal, in
    delivery order, on the same view. Since no case reads the current
    status, what a session does is decided signal by signal, and the
    last producer command wins. */
module FanSession {
  import opened JsValues
  import opened Fan

  /** Everything a run of signals did, and the event record it left. */
  datatype Session = Session(effects: seq<Effect>, event: Option<EventRecord>)

  /** The listener applied to `sigs` in order, starting from `ev`. A call that
      throws leaves its signal dropped; later signals are still delivered. */
  function Run(ev: Option<EventRecord>, sigs: seq<Signal>): Session
    decreases |sigs|
  {
    if sigs == [] then Session([], ev)
    else
      var step := Listen(ev, sigs[0]);
      var rest := Run(step.event, sigs[1..]);
      Session(step.effects + rest.effects, rest.event)
  }

  /** The status a signal commands, if it is a producer's goLive, finishEvent
      or one of the reserved tags that fall through to finishEvent. */
  function Command(sig: Signal): Option<Status>
  {
    if !Authoritative(sig) then None
    else if sig.signalType == GoLiveTag then Some(Live)
    else if ClosingTag(sig.signalType) then Some(Closed)
    else None
  }

  /** The status commanded by the last commanding signal of `sigs`, or `init`. */
  function LastCommanded(init: Status, sigs: seq<Signal>): Status
    decreases |sigs|
  {
    if sigs == [] then init
    else
      match Command(sigs[|sigs| - 1])
      case Some(s) => s
      case None => LastCommanded(init, sigs[..|sigs| - 1])
  }

  /** The number of commanding signals in `sigs`. */
  function CommandCount(sigs: seq<Signal>): nat
    decreases |sigs|
  {
    if sigs == [] then 0
    else (if Command(sigs[0]).Some? then 1 else 0) + CommandCount(sigs[1..])
  }

  /** Running two batches one after the other ends where running them together does. */
  lemma {:induction false} RunAppendEvent(ev: Option<EventRecord>, a: seq<Signal>, b: seq<Signal>)
    ensures Run(ev, a + b).event == Run(Run(ev, a).event, b).event
    decreases |a|
  {
    if a == [] {
      assert a + b == b;
    } else {
      var next := Listen(ev, a[0]).event;
      assert (a + b)[0] == a[0];
      assert (a + b)[1..] == a[1..] + b;
      assert Run(ev, a + b).event == Run(next, a[1..] + b).event;
      assert Run(ev, a).event == Run(next, a[1..]).event;
      RunAppendEvent(next, a[1..], b);
    }
  }

  /** A session in which no signal is a producer's does nothing at all:
      no media command, no status change, no persistence call. */
  lemma {:induction false} UnauthorisedSessionIsInert(ev: Option<EventRecord>, sigs: seq<Signal>)
    requires forall i :: 0 <= i < |sigs| ==> !Authoritative(sigs[i])
    ensures Run(ev, sigs) == Session([], ev)
    decreases |sigs|
  {
    if sigs != [] {
      assert !Authoritative(sigs[0]);
      assert Listen(ev, sigs[0]).effects == [] && Listen(ev, sigs[0]).event == ev;
      UnauthorisedSessionIsInert(ev, sigs[1..]);
    }
  }

  /** A session of unrecognised signal types does nothing, whoever sends them. */
  lemma {:induction false} UnrecognisedSessionIsInert(ev: Option<EventRecord>, sigs: seq<Signal>)
    requires forall i :: 0 <= i < |sigs| ==> !Recognised(sigs[i].signalType)
    ensures Run(ev, sigs) == Session([], ev)
    decreases |sigs|
  {
    if sigs != [] {
      UnrecognisedSessionIsInert(ev, sigs[1..]);
    }
  }

  /** One signal on a loaded event: the status becomes the commanded one, if
      any, whatever it was before; nothing else in the record changes. */
  lemma ListenStatus(e: EventRecord, sig: Signal)
    ensures Listen(Some(e), sig).event ==
      Some(match Command(sig) case Some(s) => e.(status := s) case None => e)
  {
  }

  /** On a loaded event the final status is the one the last producer
      goLive or closing signal commanded, and name and end image are kept.
      In particular a closed event is reopened by a later goLive. */
  lemma {:induction false} FinalStatusIsLastCommand(e: EventRecord, sigs: seq<Signal>)
    ensures Run(Some(e), sigs).event == Some(e.(status := LastCommanded(e.status, sigs)))
    decreases |sigs|
  {
    if sigs != [] {
      var n := |sigs| - 1;
      var prefix, last := sigs[..n], sigs[n];
      assert sigs == prefix + [last];
      RunAppendEvent(Some(e), prefix, [last]);
      FinalStatusIsLastCommand(e, prefix);
      var mid := e.(status := LastCommanded(e.status, prefix));
      ListenStatus(mid, last);
      assert Run(Some(mid), [last]).event == Listen(Some(mid), last).event;
    }
  }

  /** On a loaded event each commanding signal is persisted exactly once and
      nothing else is persisted. */
  lemma {:induction false} PersistedOncePerCommand(e: EventRecord, sigs: seq<Signal>)
    ensures Run(Some(e), sigs).event.Some?
    ensures PersistCount(Run(Some(e), sigs).effects) == CommandCount(sigs)
    decreases |sigs|
  {
    if sigs != [] {
      var step := Listen(Some(e), sigs[0]);
      ListenStatus(e, sigs[0]);
      var e' := step.event.value;
      PersistedOncePerCommand(e', sigs[1..]);
      PersistCountAppend(step.effects, Run(Some(e'), sigs[1..]).effects);
      if Command(sigs[0]).None? {
        assert step.effects == [] || !Recognised(sigs[0].signalType) || PersistCount(step.effects) == 0 by {
          if step.effects != [] && Recognised(sigs[0].signalType) {
            var t := sigs[0].signalType;
            assert t == VideoOnOffTag || t == MuteAudioTag || t == ChangeVolumeTag;
            assert |step.effects| == 1 && !step.effects[0].ChangeEventStatus?;
            assert PersistCount(step.effects[1..]) == 0;
          }
        }
      }
    }
  }

  /** Closing the event and then going live again leaves it live: the code
      has no terminal state. */
  lemma ReopenedAfterClose(e: EventRecord, close: Signal, goLive: Signal)
    requires Authoritative(close) && ClosingTag(close.signalType)
    requires Authoritative(goLive) && goLive.signalType == GoLiveTag
    ensures Run(Some(e), [close, goLive]).event == Some(e.(status := Live))
  {
    FinalStatusIsLastCommand(e, [close, goLive]);
    assert [close, goLive][..1] == [close];
  }
}
