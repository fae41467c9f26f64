/** The dispatch loop: consumes an ordered trace of loop events, decodes each frame into the
    reused current message, and collects every successfully decoded message, in order, as
    the messages handed to the router. */
module Dispatch {
  import opened Wrappers
  import opened Types

  newtype byte = b: int | 0 <= b < 256

  /** The members one JSON frame wrote into the decode target; `None` means the member was
      absent (or null), so the target keeps whatever it held before. */
  datatype Fields = Fields(appId: Option<int>, title: Option<string>, message: Option<string>, priority: Option<int>)

  /** What decoding one frame did: the members it wrote, and whether it reported success.
      A syntax error writes nothing; a type error in one member may still have written the
      others. */
  datatype Unmarshalled = Unmarshalled(written: Fields, ok: bool)

  /** JSON decoding, abstracted as a function from frame bytes to its effect. */
  type Decoder = seq<byte> -> Unmarshalled

  /** One event of the loop, in the order the loop selected it. */
  datatype Event = Disable | Interrupt | Closed | Frame(data: seq<byte>)

  /** Why the loop ended; `AwaitingEvents` means the trace ran out while the loop still waits. */
  datatype Stop = Disabled | Interrupted | ChannelClosed | AwaitingEvents

  /** What the loop did with a trace: the messages handed to routing (in order), the decode
      target after the last frame, how many events it consumed, and why it stopped. */
  datatype Run = Run(routed: seq<PluginMessage>, current: PluginMessage, consumed: nat, stop: Stop)

  /** The reason a terminal event ends the loop with. */
  function StopFor(e: Event): Stop
    requires !e.Frame?
  {
    match e
    case Disable => Disabled
    case Interrupt => Interrupted
    case Closed => ChannelClosed
  }

  /** Decoding into an existing message: written members overwrite, absent members keep
      their previous value. */
  function Merge(prev: PluginMessage, f: Fields): (r: PluginMessage)
    ensures f.appId.None? ==> r.appId == prev.appId
    ensures f.appId.Some? ==> r.appId == f.appId.value
    ensures f.title.None? ==> r.title == prev.title
    ensures f.title.Some? ==> r.title == f.title.value
    ensures f.message.None? ==> r.message == prev.message
    ensures f.message.Some? ==> r.message == f.message.value
    ensures f.priority.None? ==> r.priority == prev.priority
    ensures f.priority.Some? ==> r.priority == f.priority.value
  {
    PluginMessage(
      if f.appId.Some? then f.appId.value else prev.appId,
      if f.title.Some? then f.title.value else prev.title,
      if f.message.Some? then f.message.value else prev.message,
      if f.priority.Some? then f.priority.value else prev.priority)
  }

  /** Decoding the same members twice changes nothing more (used for repeated frames). */
  lemma MergeIdempotent(prev: PluginMessage, f: Fields)
    ensures Merge(Merge(prev, f), f) == Merge(prev, f)
  {
  }

  /** A frame that writes every member forgets the previous message entirely. */
  lemma MergeComplete(prev1: PluginMessage, prev2: PluginMessage, f: Fields)
    requires f.appId.Some? && f.title.Some? && f.message.Some? && f.priority.Some?
    ensures Merge(prev1, f) == Merge(prev2, f)
  {
  }

  /** The loop over a trace. Terminal events end it at once; a frame that fails to decode is
      skipped (its written members still stay in the decode target); a decoded frame is
      routed before the next event is taken. */
  function ProcessMessages(decode: Decoder, current: PluginMessage, events: seq<Event>): (r: Run)
    ensures r.consumed <= |events|
    ensures r.stop == AwaitingEvents <==> forall j :: 0 <= j < |events| ==> events[j].Frame?
    ensures r.stop == AwaitingEvents ==> r.consumed == |events|
    ensures r.stop != AwaitingEvents ==>
      1 <= r.consumed && !events[r.consumed - 1].Frame? && StopFor(events[r.consumed - 1]) == r.stop
    ensures forall j :: 0 <= j < r.consumed - 1 ==> events[j].Frame?
    ensures |r.routed| <= r.consumed
    ensures |events| > 0 && !events[0].Frame? ==> r.routed == [] && r.consumed == 1 && r.current == current
    decreases |events|
  {
    if |events| == 0 then Run([], current, 0, AwaitingEvents)
    else
      match events[0]
      case Disable => Run([], current, 1, Disabled)
      case Interrupt => Run([], current, 1, Interrupted)
      case Closed => Run([], current, 1, ChannelClosed)
      case Frame(data) =>
        var u := decode(data);
        var next := Merge(current, u.written);
        var rest := ProcessMessages(decode, next, events[1..]);
        if u.ok then
          Run([next] + rest.routed, rest.current, rest.consumed + 1, rest.stop)
        else
          rest.(consumed := rest.consumed + 1)
  }

  /** Once the loop has stopped, nothing that follows in the trace is looked at: no later
      event reaches decoding or routing. */
  lemma {:induction false} LaterEventsIgnored(decode: Decoder, current: PluginMessage, events: seq<Event>, later: seq<Event>)
    requires ProcessMessages(decode, current, events).stop != AwaitingEvents
    ensures ProcessMessages(decode, current, events + later)
         == ProcessMessages(decode, current, events)
    decreases |events|
  {
    assert (events + later)[0] == events[0];
    if events[0].Frame? {
      assert (events + later)[1..] == events[1..] + later;
      var next := Merge(current, decode(events[0].data).written);
      LaterEventsIgnored(decode, next, events[1..], later);
    }
  }

  /** A disable, interrupt or closed-channel event ends the loop right there, whatever
      follows it. */
  lemma TerminalEventEndsLoop(decode: Decoder, current: PluginMessage, before: seq<Event>, t: Event, later: seq<Event>)
    requires !t.Frame?
    ensures ProcessMessages(decode, current, before + [t] + later)
         == ProcessMessages(decode, current, before + [t])
  {
    var events := before + [t];
    assert events[|before|] == t;
    LaterEventsIgnored(decode, current, events, later);
  }

  /** Frames are handled in trace order: the messages routed for a run of frames followed by
      more events are those of the frames, then those of the rest, started from the decode
      target the frames left behind. */
  lemma {:induction false} FramesInOrder(decode: Decoder, current: PluginMessage, frames: seq<Event>, later: seq<Event>)
    requires forall j :: 0 <= j < |frames| ==> frames[j].Frame?
    ensures var p := ProcessMessages(decode, current, frames);
      var q := ProcessMessages(decode, p.current, later);
      var r := ProcessMessages(decode, current, frames + later);
      r.routed == p.routed + q.routed && r.stop == q.stop && r.consumed == |frames| + q.consumed
    decreases |frames|
  {
    if |frames| == 0 {
      assert frames + later == later;
    } else {
      assert (frames + later)[1..] == frames[1..] + later;
      var next := Merge(current, decode(frames[0].data).written);
      FramesInOrder(decode, next, frames[1..], later);
      FrameStep(decode, current, frames);
      FrameStep(decode, current, frames + later);
      ComposeFrameStep(decode(frames[0].data).ok, next,
        ProcessMessages(decode, current, frames), ProcessMessages(decode, current, frames + later),
        ProcessMessages(decode, next, frames[1..]), ProcessMessages(decode, next, frames[1..] + later),
        ProcessMessages(decode, ProcessMessages(decode, next, frames[1..]).current, later));
    }
  }

  /** The inductive step of FramesInOrder, over plain runs: a first frame put in front of two
      runs that compose keeps them composing. */
  lemma ComposeFrameStep(ok: bool, next: PluginMessage, p: Run, r: Run, p': Run, r': Run, q: Run)
    requires r'.routed == p'.routed + q.routed && r'.stop == q.stop && r'.consumed == p'.consumed + q.consumed
    requires p.routed == (if ok then [next] else []) + p'.routed && p.current == p'.current && p.consumed == p'.consumed + 1
    requires r.routed == (if ok then [next] else []) + r'.routed && r.stop == r'.stop && r.consumed == r'.consumed + 1
    ensures r.routed == p.routed + q.routed && r.stop == q.stop && r.consumed == p.consumed + q.consumed
  {
    if ok {
      ConsAssoc(next, p'.routed, q.routed);
    } else {
      assert p.routed == p'.routed && r.routed == r'.routed;
    }
  }

  /** One frame taken by the loop: it is merged into the decode target and, when decoding
      succeeded, routed ahead of everything the rest of the trace routes. */
  lemma FrameStep(decode: Decoder, current: PluginMessage, events: seq<Event>)
    requires |events| > 0 && events[0].Frame?
    ensures var u := decode(events[0].data);
      var next := Merge(current, u.written);
      var r := ProcessMessages(decode, current, events);
      var s := ProcessMessages(decode, next, events[1..]);
      r.routed == (if u.ok then [next] else []) + s.routed &&
      r.current == s.current && r.stop == s.stop && r.consumed == s.consumed + 1
  {
  }

  /** After a run of frames, a disable, interrupt or closed-channel event hands nothing to
      routing, and neither does anything after it: the routed messages are those of the
      frames alone. */
  lemma ShutdownRoutesNothingMore(decode: Decoder, current: PluginMessage, frames: seq<Event>, t: Event, later: seq<Event>)
    requires forall j :: 0 <= j < |frames| ==> frames[j].Frame?
    requires !t.Frame?
    ensures ProcessMessages(decode, current, frames + [t] + later).routed == ProcessMessages(decode, current, frames).routed
    ensures ProcessMessages(decode, current, frames + [t] + later).stop == StopFor(t)
  {
    assert frames + [t] + later == frames + ([t] + later);
    FramesInOrder(decode, current, frames, [t] + later);
    assert ([t] + later)[0] == t;
  }

  /** A frame delivered twice in a row is routed twice as the same message: the second decode
      into the reused message finds every written member already in place. */
  lemma RepeatedFrameRoutedAlike(decode: Decoder, current: PluginMessage, data: seq<byte>, later: seq<Event>)
    requires decode(data).ok
    ensures var r := ProcessMessages(decode, current, [Frame(data), Frame(data)] + later);
      |r.routed| >= 2 && r.routed[0] == r.routed[1] == Merge(current, decode(data).written)
  {
    var events := [Frame(data), Frame(data)] + later;
    var m := Merge(current, decode(data).written);
    FrameStep(decode, current, events);
    assert events[1..] == [Frame(data)] + later;
    FrameStep(decode, m, events[1..]);
    MergeIdempotent(current, decode(data).written);
  }

  /** Prepending one element re-associates over a concatenation. */
  lemma ConsAssoc<T>(x: T, a: seq<T>, b: seq<T>)
    ensures [x] + (a + b) == ([x] + a) + b
  {
  }

  /** A frame that fails to decode is not routed, and the loop goes on with the next event. */
  lemma UndecodableFrameSkipped(decode: Decoder, current: PluginMessage, data: seq<byte>, later: seq<Event>)
    requires !decode(data).ok
    ensures var r := ProcessMessages(decode, current, [Frame(data)] + later);
      var s := ProcessMessages(decode, Merge(current, decode(data).written), later);
      r.routed == s.routed && r.stop == s.stop && r.consumed == s.consumed + 1
  {
    assert ([Frame(data)] + later)[1..] == later;
  }

  /** A decoded frame is routed first, as the reused message it was decoded into: a member the
      frame omits keeps the previous frame's value. */
  lemma DecodedFrameRoutedFirst(decode: Decoder, current: PluginMessage, data: seq<byte>, later: seq<Event>)
    requires decode(data).ok
    ensures var r := ProcessMessages(decode, current, [Frame(data)] + later);
      |r.routed| >= 1 && r.routed[0] == Merge(current, decode(data).written)
    ensures decode(data).written.appId.None? ==>
      ProcessMessages(decode, current, [Frame(data)] + later).routed[0].appId == current.appId
  {
    assert ([Frame(data)] + later)[0] == Frame(data);
  }
}
