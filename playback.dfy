/**
  The frame loop of the visualizer: a cursor into the sorted timeline that,
  once per frame, dispatches every event that has come due on the virtual
  clock, forwards the note messages to the MIDI output, spawns the bombs and
  explosions, and ends the run a fixed wait after the last event.

  The MIDI output port is the sequence `sent` of messages handed to it; a
  spawned sprite is a `Spawn` record naming the event and its start tick.
 */
module Playback {
  import opened Tools
  import opened Visualizer

  /** Time from the last dispatched event to the end of the run. */
  const FINISH_WAIT_MS := 1000

  /** A sprite created by a dispatch: `Bomb(e, ticks)` or `Explosion(e)`,
      both started at the current frame tick. */
  datatype Spawn = SpawnBomb(evt: MidiEvent, startTick: int) | SpawnExplosion(evt: MidiEvent, startTick: int)

  /** The messages sent to the MIDI output while dispatching `evts`: those of
      the `note_on` and `note_off` events, in order. */
  function NoteMessages(evts: seq<MidiEvent>): seq<Message> {
    if evts == [] then []
    else
      var e := evts[|evts| - 1];
      NoteMessages(evts[..|evts| - 1]) + SentFor(e)
  }

  /** What dispatching `e` sends to the output: its message unless it is a `bomb_start`. */
  function SentFor(e: MidiEvent): seq<Message> {
    if e.eventType != BombStartEvent then [e.msg] else []
  }

  /** What dispatching `e` at frame tick `now` spawns. */
  function SpawnFor(e: MidiEvent, now: int): seq<Spawn> {
    match e.eventType
    case BombStartEvent => [SpawnBomb(e, now)]
    case NoteOnEvent => [SpawnExplosion(e, now)]
    case NoteOffEvent => []
  }

  /** The sprites spawned while dispatching `evts` at frame tick `now`: a bomb
      per `bomb_start`, an explosion per `note_on`, nothing per `note_off`. */
  function Spawns(evts: seq<MidiEvent>, now: int): seq<Spawn> {
    if evts == [] then []
    else
      var e := evts[|evts| - 1];
      Spawns(evts[..|evts| - 1], now) + SpawnFor(e, now)
  }

  /** Where the cursor stops when it starts at `from` at tick `now`: the first
      event from `from` on that is not yet due, or the end of the timeline. */
  function DueEnd(events: seq<MidiEvent>, from: nat, now: int): (stop: nat)
    requires from <= |events|
    ensures from <= stop <= |events|
    ensures forall k :: from <= k < stop ==> events[k].ticks <= now
    ensures stop == |events| || events[stop].ticks > now
    decreases |events| - from
  {
    if from == |events| || events[from].ticks > now then from
    else DueEnd(events, from + 1, now)
  }

  /** A second frame at the same tick dispatches nothing. */
  lemma DueEndIdempotent(events: seq<MidiEvent>, from: nat, now: int)
    requires from <= |events|
    ensures DueEnd(events, DueEnd(events, from, now), now) == DueEnd(events, from, now)
  {
  }

  /** On a sorted timeline every event after the cursor is still in the future:
      no due event is left behind. */
  lemma DueEndAllDue(events: seq<MidiEvent>, from: nat, now: int)
    requires from <= |events| && SortedByTicks(events)
    ensures forall k :: DueEnd(events, from, now) <= k < |events| ==> events[k].ticks > now
  {
  }

  /** A later tick never leaves the cursor further back. */
  lemma {:induction false} DueEndMonotone(events: seq<MidiEvent>, from: nat, now1: int, now2: int)
    requires from <= |events| && now1 <= now2
    ensures DueEnd(events, from, now1) <= DueEnd(events, from, now2)
    decreases |events| - from
  {
    if from < |events| && events[from].ticks <= now1 {
      DueEndMonotone(events, from + 1, now1, now2);
    }
  }

  lemma {:induction false} NoteMessagesAppend(a: seq<MidiEvent>, b: seq<MidiEvent>)
    ensures NoteMessages(a + b) == NoteMessages(a) + NoteMessages(b)
  {
    if b != [] {
      assert (a + b)[..|a + b| - 1] == a + b[..|b| - 1];
      NoteMessagesAppend(a, b[..|b| - 1]);
    } else {
      assert a + b == a;
    }
  }

  /** After the loop has dispatched `evts[start..p]` at frame tick `now`, it
      has sent `sent` and spawned `spawned`. */
  ghost predicate DispatchedSoFar(evts: seq<MidiEvent>, start: nat, p: nat, now: int, sent: seq<Message>, spawned: seq<Spawn>)
    requires start <= p <= |evts|
  {
    sent == NoteMessages(evts[start..p]) && spawned == Spawns(evts[start..p], now)
  }

  /** Dispatching one more event extends the output by what that event sends
      and spawns. */
  lemma {:induction false} DispatchStep(evts: seq<MidiEvent>, start: nat, p: nat, now: int, sent: seq<Message>, spawned: seq<Spawn>)
    requires start <= p < |evts|
    requires DispatchedSoFar(evts, start, p, now, sent, spawned)
    ensures DispatchedSoFar(evts, start, p + 1, now, sent + SentFor(evts[p]), spawned + SpawnFor(evts[p], now))
  {
    var passed := evts[start..p + 1];
    assert passed[..|passed| - 1] == evts[start..p];
    assert passed[|passed| - 1] == evts[p];
  }

  /** A cursor that passed only due events and stands before a future event
      (or at the end) is where `DueEnd` puts it. */
  lemma {:induction false} DueEndStops(events: seq<MidiEvent>, from: nat, stop: nat, now: int)
    requires from <= stop <= |events|
    requires forall k :: from <= k < stop ==> events[k].ticks <= now
    requires stop == |events| || events[stop].ticks > now
    ensures DueEnd(events, from, now) == stop
    decreases stop - from
  {
    if from < stop {
      DueEndStops(events, from + 1, stop, now);
    }
  }

  /** The messages of a prefix are those of a shorter prefix followed by those
      of the stretch between them. */
  lemma {:induction false} NoteMessagesSplit(evts: seq<MidiEvent>, start: nat, stop: nat)
    requires start <= stop <= |evts|
    ensures NoteMessages(evts[..stop]) == NoteMessages(evts[..start]) + NoteMessages(evts[start..stop])
  {
    assert evts[..stop] == evts[..start] + evts[start..stop];
    NoteMessagesAppend(evts[..start], evts[start..stop]);
  }

  /** One message is forwarded per `note_on` and per `note_off` event. */
  lemma {:induction false} NoteMessagesCount(evts: seq<MidiEvent>)
    ensures |NoteMessages(evts)| == CountEvents(evts, NoteOnEvent) + CountEvents(evts, NoteOffEvent)
  {
    if evts != [] {
      NoteMessagesCount(evts[..|evts| - 1]);
    }
  }

  /** The cursor after frames at the virtual ticks `nows`, starting at `from`. */
  function RunCursor(events: seq<MidiEvent>, from: nat, nows: seq<int>): (c: nat)
    requires from <= |events|
    ensures from <= c <= |events|
    decreases nows
  {
    if nows == [] then from else RunCursor(events, DueEnd(events, from, nows[0]), nows[1..])
  }

  /** All events dispatched by frames at the virtual ticks `nows`, frame after frame. */
  function RunDispatched(events: seq<MidiEvent>, from: nat, nows: seq<int>): seq<MidiEvent>
    requires from <= |events|
    decreases nows
  {
    if nows == [] then []
    else
      var stop := DueEnd(events, from, nows[0]);
      events[from..stop] + RunDispatched(events, stop, nows[1..])
  }

  /** Over any run of frames the events are dispatched exactly once each and
      in timeline order: together they are the stretch the cursor passed. */
  lemma {:induction false} RunDispatchesInOrder(events: seq<MidiEvent>, from: nat, nows: seq<int>)
    requires from <= |events|
    ensures RunDispatched(events, from, nows) == events[from..RunCursor(events, from, nows)]
    decreases nows
  {
    if nows != [] {
      var stop := DueEnd(events, from, nows[0]);
      RunDispatchesInOrder(events, stop, nows[1..]);
      assert events[from..stop] + events[stop..RunCursor(events, stop, nows[1..])]
          == events[from..RunCursor(events, stop, nows[1..])];
    }
  }

  /** Once a frame's tick has reached the last event of a sorted timeline,
      everything has been dispatched. */
  lemma {:induction false} RunCompletes(events: seq<MidiEvent>, from: nat, nows: seq<int>)
    requires from <= |events| && SortedByTicks(events) && nows != []
    requires |events| > 0 ==> nows[|nows| - 1] >= events[|events| - 1].ticks
    ensures RunCursor(events, from, nows) == |events|
    decreases nows
  {
    var stop := DueEnd(events, from, nows[0]);
    if |nows| == 1 {
      DueEndAllDue(events, from, nows[0]);
    } else {
      assert nows[1..][|nows[1..]| - 1] == nows[|nows| - 1];
      RunCompletes(events, stop, nows[1..]);
    }
  }

  /** The body of the inner loop for one due event `e` at frame tick `now`:
      a `bomb_start` spawns a bomb, a `note_on` is sent and spawns an
      explosion, a `note_off` is sent. */
  method DispatchEvent(e: MidiEvent, now: int) returns (sentE: seq<Message>, spawnE: seq<Spawn>)
    ensures sentE == SentFor(e) && spawnE == SpawnFor(e, now)
    ensures |sentE| <= 1 && |spawnE| <= 1
  {
    sentE, spawnE := [], [];
    if e.eventType == BombStartEvent {
      spawnE := [SpawnBomb(e, now)];
    } else if e.eventType == NoteOnEvent {
      sentE := [e.msg];
      spawnE := [SpawnExplosion(e, now)];
    } else if e.eventType == NoteOffEvent {
      sentE := [e.msg];
    }
  }

  /** The inner loop of a frame at virtual tick `now`, from cursor `from`:
      dispatches every due event in timeline order, sending the note
      messages and spawning the sprites, and returns where it stopped. */
  method DispatchDue(evts: seq<MidiEvent>, from: nat, now: int)
      returns (stop: nat, dispatched: seq<MidiEvent>, sentNow: seq<Message>, spawned: seq<Spawn>)
    requires from <= |evts|
    ensures from <= stop == DueEnd(evts, from, now)
    ensures dispatched == evts[from..stop]
    ensures sentNow == NoteMessages(dispatched)
    ensures spawned == Spawns(dispatched, now)
  {
    var evtP := from;
    sentNow, spawned := [], [];
    while evtP < |evts| && evts[evtP].ticks <= now
      invariant from <= evtP <= |evts|
      invariant forall k :: from <= k < evtP ==> evts[k].ticks <= now
      invariant DispatchedSoFar(evts, from, evtP, now, sentNow, spawned)
      decreases |evts| - evtP
    {
      var e := evts[evtP];
      var sentE, spawnE := DispatchEvent(e, now);
      DispatchStep(evts, from, evtP, now, sentNow, spawned);
      sentNow, spawned := sentNow + sentE, spawned + spawnE;
      evtP := evtP + 1;
    }
    stop, dispatched := evtP, evts[from..evtP];
    assert DispatchedSoFar(evts, from, evtP, now, sentNow, spawned);
    DueEndStops(evts, from, stop, now);
  }

  /** The state the frame loop of `main` keeps between frames. */
  class Scheduler {
    const events: seq<MidiEvent>
    var cursor: nat
    var finishingStartTick: Option<int>
    var sent: seq<Message>

    ghost predicate Valid()
      reads this
    {
      && cursor <= |events|
      && (finishingStartTick.Some? ==> cursor == |events|)
      && sent == NoteMessages(events[..cursor])
    }

    /** The loop's state before the first frame over timeline `events`. */
    constructor (events: seq<MidiEvent>)
      ensures Valid()
      ensures this.events == events && cursor == 0 && finishingStartTick == None && sent == []
    {
      this.events := events;
      cursor := 0;
      finishingStartTick := None;
      sent := [];
    }

    /** The inner loop of a frame at virtual tick `now`, applied to the
        loop's state: moves the cursor past every due event and hands their
        note messages to the output. */
    method Dispatch(now: int) returns (dispatched: seq<MidiEvent>, sentNow: seq<Message>, spawned: seq<Spawn>)
      requires Valid()
      modifies this`cursor, this`sent
      ensures Valid()
      ensures old(cursor) <= cursor == DueEnd(events, old(cursor), now)
      ensures dispatched == events[old(cursor)..cursor]
      ensures sentNow == NoteMessages(dispatched) && sent == old(sent) + sentNow
      ensures spawned == Spawns(dispatched, now)
    {
      var stop;
      stop, dispatched, sentNow, spawned := DispatchDue(events, cursor, now);
      NoteMessagesSplit(events, cursor, stop);
      cursor, sent := stop, sent + sentNow;
    }

    /** One frame at wall-clock reading `wallTicks`: dispatch every due event,
        then start or check the final wait. */
    method Step(wallTicks: int) returns (dispatched: seq<MidiEvent>, sentNow: seq<Message>, spawned: seq<Spawn>, finished: bool)
      requires Valid()
      modifies this
      ensures Valid()
      ensures var now := GetMyTick(wallTicks);
        && old(cursor) <= cursor == DueEnd(events, old(cursor), now)
        && dispatched == events[old(cursor)..cursor]
        && (SortedByTicks(events) ==> forall k :: cursor <= k < |events| ==> events[k].ticks > now)
        && sentNow == NoteMessages(dispatched)
        && sent == old(sent) + sentNow
        && spawned == Spawns(dispatched, now)
        && finishingStartTick == (if old(finishingStartTick).None? && cursor == |events| then Some(now) else old(finishingStartTick))
        && finished == (cursor == |events| && now - finishingStartTick.value >= FINISH_WAIT_MS)
    {
      var ticks := GetMyTick(wallTicks);
      dispatched, sentNow, spawned := Dispatch(ticks);
      if SortedByTicks(events) {
        DueEndAllDue(events, old(cursor), ticks);
      }
      finished := false;
      if cursor >= |events| {
        if finishingStartTick.None? {
          finishingStartTick := Some(ticks);
        }
        if ticks - finishingStartTick.value >= FINISH_WAIT_MS {
          finished := true;
        }
      }
    }
  }
}
