/**
  The timeline builder of the visualizer: the note range of a MIDI file, the
  per-track tagging of note messages, and the construction of the sorted list
  of timeline events (`note_on`, `note_off` and the synthesised `bomb_start`
  that sets a falling bomb on its way a fixed lead time before its note).

  A MIDI file is seen as mido yields it when iterated: one merged stream of
  messages, each with the integer number of milliseconds since the previous
  one.  Every message type other than `note_on` and `note_off` is `OtherMsg`.
 */
module Tools {

  datatype Option<T> = None | Some(value: T)

  /** A MIDI note number; mido refuses any other value. */
  type Pitch = n: int | 0 <= n <= 127

  datatype MsgType = NoteOnMsg | NoteOffMsg | OtherMsg

  /** One MIDI message.  `delta` is `int(msg.time * 1000)`; `note` is ignored
      for messages that are not notes. */
  datatype Message = Message(msgType: MsgType, delta: int, note: Pitch, channel: int)

  predicate IsNote(m: Message) {
    m.msgType == NoteOnMsg || m.msgType == NoteOffMsg
  }

  datatype EventType = NoteOnEvent | NoteOffEvent | BombStartEvent

  /** One event of the timeline.  `bombEndTicks` is set on `bomb_start` only. */
  datatype MidiEvent = MidiEvent(ticks: int, eventType: EventType, track: int, msg: Message, bombEndTicks: Option<int>)

  /** Default of `set_track_type`'s `track_max`. */
  const DEFAULT_TRACK_MAX := 4

  // ---------------------------------------------------------------------------
  // Note range

  /** The lowest and the highest pitch of all `note_on` messages; `(200, -1)`
      when there is none. */
  method GetNoteRange(stream: seq<Message>) returns (noteMin: int, noteMax: int)
    ensures forall i :: 0 <= i < |stream| && stream[i].msgType == NoteOnMsg ==>
      noteMin <= stream[i].note <= noteMax
    ensures (exists i :: 0 <= i < |stream| && stream[i].msgType == NoteOnMsg) ==>
      (exists i :: 0 <= i < |stream| && stream[i].msgType == NoteOnMsg && stream[i].note == noteMin) &&
      (exists i :: 0 <= i < |stream| && stream[i].msgType == NoteOnMsg && stream[i].note == noteMax)
    ensures (forall i :: 0 <= i < |stream| ==> stream[i].msgType != NoteOnMsg) ==>
      noteMin == 200 && noteMax == -1
  {
    noteMin, noteMax := 200, -1;
    for i := 0 to |stream|
      invariant forall k :: 0 <= k < i && stream[k].msgType == NoteOnMsg ==> noteMin <= stream[k].note <= noteMax
      invariant (exists k :: 0 <= k < i && stream[k].msgType == NoteOnMsg) ==>
        (exists k :: 0 <= k < i && stream[k].msgType == NoteOnMsg && stream[k].note == noteMin) &&
        (exists k :: 0 <= k < i && stream[k].msgType == NoteOnMsg && stream[k].note == noteMax)
      invariant (forall k :: 0 <= k < i ==> stream[k].msgType != NoteOnMsg) ==> noteMin == 200 && noteMax == -1
    {
      if stream[i].msgType == NoteOnMsg {
        var n := stream[i].note;
        if n > noteMax {
          noteMax := n;
        }
        if n < noteMin {
          noteMin := n;
        }
      }
    }
  }

  // ---------------------------------------------------------------------------
  // Track tagging

  /** `after` is `before` with the channel of every note message of track `k`
      set to `min(k, trackMax)`, and nothing else changed. */
  predicate TaggedFrom(before: seq<seq<Message>>, after: seq<seq<Message>>, trackMax: int) {
    && |after| == |before|
    && (forall k :: 0 <= k < |after| ==> |after[k]| == |before[k]|)
    && (forall k, i :: 0 <= k < |after| && 0 <= i < |after[k]| ==>
         after[k][i] == (if IsNote(before[k][i]) then before[k][i].(channel := if k < trackMax then k else trackMax)
                         else before[k][i]))
  }

  /** A MIDI file as a list of tracks, each a list of messages. */
  class MidiFile {
    var tracks: seq<seq<Message>>

    constructor (tracks: seq<seq<Message>>)
      ensures this.tracks == tracks
    {
      this.tracks := tracks;
    }

    /** Writes `min(k, trackMax)` into the channel of every note message of
        track `k`, so that the track survives the merge into one stream. */
    method SetTrackType(trackMax: int)
      modifies this
      ensures TaggedFrom(old(tracks), tracks, trackMax)
    {
      for trackNum := 0 to |tracks|
        invariant |tracks| == |old(tracks)|
        invariant forall k :: 0 <= k < |tracks| ==> |tracks[k]| == |old(tracks)[k]|
        invariant forall k, i :: 0 <= k < trackNum && 0 <= i < |tracks[k]| ==>
          tracks[k][i] == (if IsNote(old(tracks)[k][i]) then old(tracks)[k][i].(channel := if k < trackMax then k else trackMax)
                           else old(tracks)[k][i])
        invariant forall k :: trackNum <= k < |tracks| ==> tracks[k] == old(tracks)[k]
      {
        var channel := if trackNum < trackMax then trackNum else trackMax;
        for i := 0 to |tracks[trackNum]|
          invariant |tracks| == |old(tracks)|
          invariant forall k :: 0 <= k < |tracks| ==> |tracks[k]| == |old(tracks)[k]|
          invariant forall k, j :: 0 <= k < trackNum && 0 <= j < |tracks[k]| ==>
            tracks[k][j] == (if IsNote(old(tracks)[k][j]) then old(tracks)[k][j].(channel := if k < trackMax then k else trackMax)
                             else old(tracks)[k][j])
          invariant forall k :: trackNum < k < |tracks| ==> tracks[k] == old(tracks)[k]
          invariant forall j :: 0 <= j < i ==>
            tracks[trackNum][j] == (if IsNote(old(tracks)[trackNum][j]) then old(tracks)[trackNum][j].(channel := channel)
                                    else old(tracks)[trackNum][j])
          invariant forall j :: i <= j < |tracks[trackNum]| ==> tracks[trackNum][j] == old(tracks)[trackNum][j]
        {
          var msg := tracks[trackNum][i];
          if IsNote(msg) {
            tracks := tracks[trackNum := tracks[trackNum][i := msg.(channel := channel)]];
          }
        }
      }
    }
  }

  // ---------------------------------------------------------------------------
  // Timeline events of one message

  /** The track recorded for a note message: the channel `set_track_type`
      wrote, or 0 when tagging is off. */
  function TrackType(m: Message, setTrack: bool): int {
    if setTrack then m.channel else 0
  }

  /** The message as it is stored for forwarding: time reset to 0 and, when
      tagging is on, the borrowed channel reset to 0. */
  function Forwarded(m: Message, setTrack: bool): (f: Message)
    ensures f.msgType == m.msgType && f.note == m.note && f.delta == 0
    ensures f.channel == if setTrack then 0 else m.channel
  {
    m.(delta := 0, channel := if setTrack then 0 else m.channel)
  }

  /** The `note_on` or `note_off` event of a note message heard at `ticks`. */
  function NoteEvent(m: Message, ticks: int, setTrack: bool): MidiEvent
    requires IsNote(m)
  {
    MidiEvent(ticks, if m.msgType == NoteOnMsg then NoteOnEvent else NoteOffEvent,
              TrackType(m, setTrack), Forwarded(m, setTrack), None)
  }

  /** The `bomb_start` event synthesised for the `note_on` event `e`. */
  function BombFor(e: MidiEvent, bombLifeTicks: int): MidiEvent {
    MidiEvent(e.ticks - bombLifeTicks, BombStartEvent, e.track, e.msg, Some(e.ticks))
  }

  /** The events appended for message `m` whose absolute time is `ticks`. */
  function EventsFor(m: Message, ticks: int, bombLifeTicks: int, setTrack: bool): (r: seq<MidiEvent>)
    ensures !IsNote(m) ==> r == []
    ensures m.msgType == NoteOffMsg ==> |r| == 1 && r[0].eventType == NoteOffEvent
    ensures m.msgType == NoteOnMsg ==> |r| == 2 && r[0].eventType == NoteOnEvent && r[1].eventType == BombStartEvent
    ensures forall e :: e in r && e.eventType != BombStartEvent ==> e.ticks == ticks && e.bombEndTicks.None?
    ensures forall e :: e in r && e.eventType == BombStartEvent ==>
      e.bombEndTicks == Some(ticks) && e.ticks == ticks - bombLifeTicks
    ensures forall e :: e in r ==> e.track == TrackType(m, setTrack) && e.msg == Forwarded(m, setTrack)
  {
    if m.msgType == NoteOnMsg then
      var e := NoteEvent(m, ticks, setTrack);
      [e, BombFor(e, bombLifeTicks)]
    else if m.msgType == NoteOffMsg then
      [NoteEvent(m, ticks, setTrack)]
    else
      []
  }

  // ---------------------------------------------------------------------------
  // The unsorted timeline

  /** The absolute time of the last message of `s`: the sum of all deltas. */
  function SumDeltas(s: seq<Message>): int {
    if s == [] then 0 else SumDeltas(s[..|s| - 1]) + s[|s| - 1].delta
  }

  /** The events in the order `load_midi_events` appends them, before the sort. */
  function Emitted(s: seq<Message>, bombLifeTicks: int, setTrack: bool): seq<MidiEvent> {
    if s == [] then []
    else Emitted(s[..|s| - 1], bombLifeTicks, setTrack) + EventsFor(s[|s| - 1], SumDeltas(s), bombLifeTicks, setTrack)
  }

  function CountMsg(s: seq<Message>, t: MsgType): nat {
    if s == [] then 0 else CountMsg(s[..|s| - 1], t) + (if s[|s| - 1].msgType == t then 1 else 0)
  }

  function CountEvents(s: seq<MidiEvent>, t: EventType): nat {
    if s == [] then 0 else CountEvents(s[..|s| - 1], t) + (if s[|s| - 1].eventType == t then 1 else 0)
  }

  lemma {:induction false} CountEventsAppend(a: seq<MidiEvent>, b: seq<MidiEvent>, t: EventType)
    ensures CountEvents(a + b, t) == CountEvents(a, t) + CountEvents(b, t)
  {
    if b != [] {
      assert (a + b)[..|a + b| - 1] == a + b[..|b| - 1];
      CountEventsAppend(a, b[..|b| - 1], t);
    } else {
      assert a + b == a;
    }
  }

  /** Every `note_on` contributes two events and every `note_off` one; there
      are as many `bomb_start` as `note_on` events. */
  lemma {:induction false} EmittedCounts(s: seq<Message>, bombLifeTicks: int, setTrack: bool)
    ensures var e := Emitted(s, bombLifeTicks, setTrack);
      && |e| == CountMsg(s, NoteOffMsg) + 2 * CountMsg(s, NoteOnMsg)
      && CountEvents(e, NoteOnEvent) == CountMsg(s, NoteOnMsg)
      && CountEvents(e, BombStartEvent) == CountMsg(s, NoteOnMsg)
      && CountEvents(e, NoteOffEvent) == CountMsg(s, NoteOffMsg)
  {
    if s != [] {
      var init, m := s[..|s| - 1], s[|s| - 1];
      EmittedCounts(init, bombLifeTicks, setTrack);
      var r := EventsFor(m, SumDeltas(s), bombLifeTicks, setTrack);
      var e0 := Emitted(init, bombLifeTicks, setTrack);
      CountEventsAppend(e0, r, NoteOnEvent);
      CountEventsAppend(e0, r, NoteOffEvent);
      CountEventsAppend(e0, r, BombStartEvent);
      EventsForCounts(m, SumDeltas(s), bombLifeTicks, setTrack);
    }
  }

  /** A `note_on` yields one `note_on` and one `bomb_start` event, a
      `note_off` one `note_off` event, anything else none. */
  lemma {:induction false} EventsForCounts(m: Message, ticks: int, bombLifeTicks: int, setTrack: bool)
    ensures var r := EventsFor(m, ticks, bombLifeTicks, setTrack);
      && CountEvents(r, NoteOnEvent) == (if m.msgType == NoteOnMsg then 1 else 0)
      && CountEvents(r, BombStartEvent) == (if m.msgType == NoteOnMsg then 1 else 0)
      && CountEvents(r, NoteOffEvent) == (if m.msgType == NoteOffMsg then 1 else 0)
  {
    var r := EventsFor(m, ticks, bombLifeTicks, setTrack);
    if m.msgType == NoteOnMsg {
      assert r[..1] == [r[0]];
      CountEventsSingle(r[0], NoteOnEvent);
      CountEventsSingle(r[0], BombStartEvent);
      CountEventsSingle(r[0], NoteOffEvent);
    } else if m.msgType == NoteOffMsg {
      assert r[..0] == [];
    }
  }

  lemma CountEventsSingle(e: MidiEvent, t: EventType)
    ensures CountEvents([e], t) == if e.eventType == t then 1 else 0
  {
    assert [e][..0] == [];
  }

  /** One more message of the stream adds its delta to the clock and its
      events to the end of the list. */
  lemma {:induction false} EmittedStep(s: seq<Message>, i: nat, bombLifeTicks: int, setTrack: bool)
    requires i < |s|
    ensures SumDeltas(s[..i + 1]) == SumDeltas(s[..i]) + s[i].delta
    ensures Emitted(s[..i + 1], bombLifeTicks, setTrack)
      == Emitted(s[..i], bombLifeTicks, setTrack) + EventsFor(s[i], SumDeltas(s[..i + 1]), bombLifeTicks, setTrack)
  {
    assert s[..i + 1][..i] == s[..i];
  }

  /** The events of a prefix of the stream are a prefix of the events of the stream. */
  lemma {:induction false} EmittedPrefix(s: seq<Message>, n: nat, bombLifeTicks: int, setTrack: bool)
    requires n <= |s|
    ensures Emitted(s[..n], bombLifeTicks, setTrack) <= Emitted(s, bombLifeTicks, setTrack)
  {
    if n == |s| {
      assert s[..n] == s;
    } else {
      var init := s[..|s| - 1];
      EmittedPrefix(init, n, bombLifeTicks, setTrack);
      assert init[..n] == s[..n];
    }
  }

  /** The events message `i` contributes sit, in order, right after those of
      the messages before it, with the absolute time of message `i`: the sum
      of the deltas of messages `0..i`. */
  lemma {:induction false} EmittedAt(s: seq<Message>, i: int, bombLifeTicks: int, setTrack: bool)
    requires 0 <= i < |s|
    ensures var k := |Emitted(s[..i], bombLifeTicks, setTrack)|;
      var r := EventsFor(s[i], SumDeltas(s[..i + 1]), bombLifeTicks, setTrack);
      k + |r| <= |Emitted(s, bombLifeTicks, setTrack)| && Emitted(s, bombLifeTicks, setTrack)[k..k + |r|] == r
  {
    EmittedStep(s, i, bombLifeTicks, setTrack);
    EmittedPrefix(s, i + 1, bombLifeTicks, setTrack);
    SliceAfterPrefix(Emitted(s[..i], bombLifeTicks, setTrack),
      EventsFor(s[i], SumDeltas(s[..i + 1]), bombLifeTicks, setTrack), Emitted(s, bombLifeTicks, setTrack));
  }

  lemma {:induction false} SliceAfterPrefix(a: seq<MidiEvent>, r: seq<MidiEvent>, all: seq<MidiEvent>)
    requires a + r <= all
    ensures |a| + |r| <= |all| && all[|a|..|a| + |r|] == r
  {
    assert all[..|a + r|] == a + r;
    assert all[|a|..|a| + |r|] == (a + r)[|a|..];
  }

  lemma PrefixOfPrefix(s: seq<Message>, n: nat, k: nat)
    requires k <= n <= |s|
    ensures s[..n][..k] == s[..k]
  {
  }

  /** Every event comes from a note message `i` of the stream and carries the
      absolute time of that message. */
  lemma {:induction false} EmittedSource(s: seq<Message>, bombLifeTicks: int, setTrack: bool, e: MidiEvent)
    requires e in Emitted(s, bombLifeTicks, setTrack)
    ensures exists i :: 0 <= i < |s| && IsNote(s[i]) && e in EventsFor(s[i], SumDeltas(s[..i + 1]), bombLifeTicks, setTrack)
  {
    var init, last := s[..|s| - 1], s[|s| - 1];
    if e in EventsFor(last, SumDeltas(s), bombLifeTicks, setTrack) {
      var i := |s| - 1;
      assert s[..i + 1] == s;
      assert IsNote(s[i]) && e in EventsFor(s[i], SumDeltas(s[..i + 1]), bombLifeTicks, setTrack);
    } else {
      EmittedSource(init, bombLifeTicks, setTrack, e);
      var i :| 0 <= i < |init| && IsNote(init[i]) && e in EventsFor(init[i], SumDeltas(init[..i + 1]), bombLifeTicks, setTrack);
      PrefixOfPrefix(s, |s| - 1, i + 1);
      assert IsNote(s[i]) && e in EventsFor(s[i], SumDeltas(s[..i + 1]), bombLifeTicks, setTrack);
    }
  }

  /** Each `note_on` event has its `bomb_start` and each `bomb_start` has the
      `note_on` it was made for. */
  lemma {:induction false} EmittedBombsPaired(s: seq<Message>, bombLifeTicks: int, setTrack: bool)
    ensures var es := Emitted(s, bombLifeTicks, setTrack);
      (forall e :: e in es && e.eventType == NoteOnEvent ==> BombFor(e, bombLifeTicks) in es) &&
      (forall e :: e in es && e.eventType == BombStartEvent ==>
        exists n :: n in es && n.eventType == NoteOnEvent && e == BombFor(n, bombLifeTicks))
  {
    if s != [] {
      var init, m := s[..|s| - 1], s[|s| - 1];
      EmittedBombsPaired(init, bombLifeTicks, setTrack);
      var e0 := Emitted(init, bombLifeTicks, setTrack);
      var r := EventsFor(m, SumDeltas(s), bombLifeTicks, setTrack);
      var es: seq<MidiEvent> := e0 + r;
      forall e: MidiEvent | e in es && e.eventType == BombStartEvent
        ensures exists n: MidiEvent :: n in es && n.eventType == NoteOnEvent && e == BombFor(n, bombLifeTicks)
      {
        if e in e0 {
          var n :| n in e0 && n.eventType == NoteOnEvent && e == BombFor(n, bombLifeTicks);
          assert n in es;
        } else {
          assert r[0] in es;
        }
      }
    }
  }

  /** When no delta is negative, `note_on`/`note_off` events are at or after
      time 0 and `bomb_start` events at or after `-bombLifeTicks`. */
  lemma {:induction false} EmittedTicksBound(s: seq<Message>, bombLifeTicks: int, setTrack: bool)
    requires forall i :: 0 <= i < |s| ==> s[i].delta >= 0
    ensures SumDeltas(s) >= 0
    ensures forall e :: e in Emitted(s, bombLifeTicks, setTrack) ==>
      e.ticks >= if e.eventType == BombStartEvent then -bombLifeTicks else 0
  {
    if s != [] {
      EmittedTicksBound(s[..|s| - 1], bombLifeTicks, setTrack);
    }
  }

  // ---------------------------------------------------------------------------
  // Stable sort by ticks (Python's list.sort with key=ticks)

  predicate SortedByTicks(s: seq<MidiEvent>) {
    forall i, j :: 0 <= i < j < |s| ==> s[i].ticks <= s[j].ticks
  }

  /** The events of `s` at tick `t`, in their order in `s`. */
  function AtTick(s: seq<MidiEvent>, t: int): seq<MidiEvent> {
    if s == [] then [] else AtTick(s[..|s| - 1], t) + (if s[|s| - 1].ticks == t then [s[|s| - 1]] else [])
  }

  /** Puts `e` behind every event whose tick is not greater than its own. */
  function InsertByTicks(s: seq<MidiEvent>, e: MidiEvent): seq<MidiEvent> {
    if s == [] || s[|s| - 1].ticks <= e.ticks then s + [e]
    else InsertByTicks(s[..|s| - 1], e) + [s[|s| - 1]]
  }

  function StableSort(s: seq<MidiEvent>): seq<MidiEvent> {
    if s == [] then [] else InsertByTicks(StableSort(s[..|s| - 1]), s[|s| - 1])
  }

  lemma {:induction false} AtTickAppend(a: seq<MidiEvent>, b: seq<MidiEvent>, t: int)
    ensures AtTick(a + b, t) == AtTick(a, t) + AtTick(b, t)
  {
    if b != [] {
      assert (a + b)[..|a + b| - 1] == a + b[..|b| - 1];
      AtTickAppend(a, b[..|b| - 1], t);
    } else {
      assert a + b == a;
    }
  }

  lemma {:induction false} InsertPermutes(s: seq<MidiEvent>, e: MidiEvent)
    ensures multiset(InsertByTicks(s, e)) == multiset(s) + multiset{e}
  {
    if !(s == [] || s[|s| - 1].ticks <= e.ticks) {
      InsertPermutes(s[..|s| - 1], e);
      assert s == s[..|s| - 1] + [s[|s| - 1]];
    }
  }

  /** Inserting keeps every tick under a common bound. */
  lemma {:induction false} InsertBounded(s: seq<MidiEvent>, e: MidiEvent, b: int)
    requires forall i :: 0 <= i < |s| ==> s[i].ticks <= b
    requires e.ticks <= b
    ensures forall i :: 0 <= i < |InsertByTicks(s, e)| ==> InsertByTicks(s, e)[i].ticks <= b
  {
    if !(s == [] || s[|s| - 1].ticks <= e.ticks) {
      InsertBounded(s[..|s| - 1], e, b);
    }
  }

  lemma {:induction false} InsertSorted(s: seq<MidiEvent>, e: MidiEvent)
    requires SortedByTicks(s)
    ensures SortedByTicks(InsertByTicks(s, e))
  {
    if !(s == [] || s[|s| - 1].ticks <= e.ticks) {
      var init, last := s[..|s| - 1], s[|s| - 1];
      InsertSorted(init, e);
      InsertBounded(init, e, last.ticks);
      var r := InsertByTicks(init, e);
      assert InsertByTicks(s, e) == r + [last];
    }
  }

  lemma AtTickSingle(e: MidiEvent, t: int)
    ensures AtTick([e], t) == if e.ticks == t then [e] else []
  {
    assert [e][..0] == [];
  }

  lemma {:induction false} InsertStable(s: seq<MidiEvent>, e: MidiEvent, t: int)
    ensures AtTick(InsertByTicks(s, e), t) == AtTick(s, t) + AtTick([e], t)
  {
    if s == [] || s[|s| - 1].ticks <= e.ticks {
      AtTickAppend(s, [e], t);
    } else {
      var init, last := s[..|s| - 1], s[|s| - 1];
      InsertStable(init, e, t);
      AtTickAppend(InsertByTicks(init, e), [last], t);
      AtTickSingle(e, t);
      AtTickSingle(last, t);
    }
  }

  lemma {:induction false} InsertCounts(s: seq<MidiEvent>, e: MidiEvent, ty: EventType)
    ensures CountEvents(InsertByTicks(s, e), ty) == CountEvents(s, ty) + (if e.eventType == ty then 1 else 0)
  {
    if s == [] || s[|s| - 1].ticks <= e.ticks {
      CountEventsAppend(s, [e], ty);
    } else {
      var init, last := s[..|s| - 1], s[|s| - 1];
      InsertCounts(init, e, ty);
      var r := InsertByTicks(init, e);
      assert (r + [last])[..|r|] == r;
    }
  }

  lemma {:induction false} MultisetLast(s: seq<MidiEvent>)
    requires s != []
    ensures multiset(s) == multiset(s[..|s| - 1]) + multiset{s[|s| - 1]}
  {
    assert s == s[..|s| - 1] + [s[|s| - 1]];
  }

  /** The sorted timeline is ordered by ticks and is a permutation of its input. */
  lemma {:induction false} StableSortSortsAndPermutes(s: seq<MidiEvent>)
    ensures SortedByTicks(StableSort(s))
    ensures multiset(StableSort(s)) == multiset(s)
  {
    if s != [] {
      var init, last := s[..|s| - 1], s[|s| - 1];
      StableSortSortsAndPermutes(init);
      InsertSorted(StableSort(init), last);
      InsertPermutes(StableSort(init), last);
      MultisetLast(s);
    }
  }

  /** Events with equal ticks keep their relative order: the sort is stable. */
  lemma {:induction false} StableSortIsStable(s: seq<MidiEvent>, t: int)
    ensures AtTick(StableSort(s), t) == AtTick(s, t)
  {
    if s != [] {
      var init, last := s[..|s| - 1], s[|s| - 1];
      StableSortIsStable(init, t);
      InsertStable(StableSort(init), last, t);
      AtTickSingle(last, t);
    }
  }

  lemma {:induction false} StableSortCounts(s: seq<MidiEvent>, ty: EventType)
    ensures CountEvents(StableSort(s), ty) == CountEvents(s, ty)
  {
    if s != [] {
      var init, last := s[..|s| - 1], s[|s| - 1];
      StableSortCounts(init, ty);
      InsertCounts(StableSort(init), last, ty);
    }
  }

  // ---------------------------------------------------------------------------
  // load_midi_events

  /** Every note message's channel lies in `0..trackMax`, as `SetTrackType`
      leaves it for a non-negative `trackMax`. */
  predicate ChannelsTagged(s: seq<Message>, trackMax: int) {
    forall i :: 0 <= i < |s| && IsNote(s[i]) ==> 0 <= s[i].channel <= trackMax
  }

  /** After tagging with a non-negative `trackMax`, every track's note
      channels lie in `0..trackMax`. */
  lemma TaggedChannels(before: seq<seq<Message>>, after: seq<seq<Message>>, trackMax: int)
    requires TaggedFrom(before, after, trackMax) && 0 <= trackMax
    ensures forall k :: 0 <= k < |after| ==> ChannelsTagged(after[k], trackMax)
  {
  }

  /** `s` is a merge of `tracks`: each of its messages is a message of some
      track, with only its time rewritten. */
  predicate MergedFrom(s: seq<Message>, tracks: seq<seq<Message>>) {
    forall i :: 0 <= i < |s| ==>
      exists k, j :: 0 <= k < |tracks| && 0 <= j < |tracks[k]| && s[i] == tracks[k][j].(delta := s[i].delta)
  }

  /** A merge of tagged tracks is a tagged stream. */
  lemma MergedTagged(s: seq<Message>, tracks: seq<seq<Message>>, trackMax: int)
    requires MergedFrom(s, tracks)
    requires forall k :: 0 <= k < |tracks| ==> ChannelsTagged(tracks[k], trackMax)
    ensures ChannelsTagged(s, trackMax)
  {
    forall i | 0 <= i < |s| && IsNote(s[i]) ensures 0 <= s[i].channel <= trackMax {
      var k, j :| 0 <= k < |tracks| && 0 <= j < |tracks[k]| && s[i] == tracks[k][j].(delta := s[i].delta);
      assert IsNote(tracks[k][j]);
    }
  }

  /** Event `e` is that of a note message of track `k` of the untagged
      file, and records `min(k, trackMax)` as its track. */
  predicate FromTrack(e: MidiEvent, before: seq<seq<Message>>, trackMax: int) {
    exists k, j :: 0 <= k < |before| && 0 <= j < |before[k]| && IsNote(before[k][j]) &&
      e.msg.msgType == before[k][j].msgType && e.msg.note == before[k][j].note &&
      e.track == (if k < trackMax then k else trackMax)
  }

  /** With tagging on, over a merge of the tracks `SetTrackType` produced,
      every timeline event records the track its note came from:
      `min(k, trackMax)` for a note of track `k`. */
  lemma {:induction false} TaggedTimelineTracks(before: seq<seq<Message>>, after: seq<seq<Message>>, s: seq<Message>,
                                                bombLifeTicks: int, trackMax: int)
    requires TaggedFrom(before, after, trackMax) && MergedFrom(s, after)
    ensures forall e :: e in Timeline(s, bombLifeTicks, true) ==> FromTrack(e, before, trackMax)
    ensures 0 <= trackMax ==> forall e :: e in Timeline(s, bombLifeTicks, true) ==> 0 <= e.track <= trackMax
  {
    forall e | e in Timeline(s, bombLifeTicks, true)
      ensures FromTrack(e, before, trackMax)
    {
      TimelineMembers(s, bombLifeTicks, true, e);
      EmittedSource(s, bombLifeTicks, true, e);
      var i :| 0 <= i < |s| && IsNote(s[i]) && e in EventsFor(s[i], SumDeltas(s[..i + 1]), bombLifeTicks, true);
      var k, j :| 0 <= k < |after| && 0 <= j < |after[k]| && s[i] == after[k][j].(delta := s[i].delta);
      assert IsNote(before[k][j]);
    }
  }

  /** The timeline that `load_midi_events` returns. */
  function Timeline(s: seq<Message>, bombLifeTicks: int, setTrack: bool): seq<MidiEvent> {
    StableSort(Emitted(s, bombLifeTicks, setTrack))
  }

  lemma {:induction false} TimelineMembers(s: seq<Message>, bombLifeTicks: int, setTrack: bool, e: MidiEvent)
    ensures e in Timeline(s, bombLifeTicks, setTrack) <==> e in Emitted(s, bombLifeTicks, setTrack)
  {
    var es := Emitted(s, bombLifeTicks, setTrack);
    StableSortSortsAndPermutes(es);
    assert e in StableSort(es) <==> e in multiset(StableSort(es));
    assert e in es <==> e in multiset(es);
  }

  /** The timeline holds `note_off` once and `note_on` twice over (its event
      and its `bomb_start`), and pairs every `note_on` with its `bomb_start`. */
  lemma {:induction false} TimelineCounts(s: seq<Message>, bombLifeTicks: int, setTrack: bool)
    ensures var tl := Timeline(s, bombLifeTicks, setTrack);
      && |tl| == CountMsg(s, NoteOffMsg) + 2 * CountMsg(s, NoteOnMsg)
      && CountEvents(tl, NoteOnEvent) == CountEvents(tl, BombStartEvent) == CountMsg(s, NoteOnMsg)
      && CountEvents(tl, NoteOffEvent) == CountMsg(s, NoteOffMsg)
  {
    var es := Emitted(s, bombLifeTicks, setTrack);
    StableSortSortsAndPermutes(es);
    assert |StableSort(es)| == |multiset(StableSort(es))| == |multiset(es)| == |es|;
    EmittedCounts(s, bombLifeTicks, setTrack);
    StableSortCounts(es, NoteOnEvent);
    StableSortCounts(es, NoteOffEvent);
    StableSortCounts(es, BombStartEvent);
  }

  lemma {:induction false} TimelineBombsPaired(s: seq<Message>, bombLifeTicks: int, setTrack: bool)
    ensures var tl := Timeline(s, bombLifeTicks, setTrack);
      (forall e :: e in tl && e.eventType == NoteOnEvent ==> BombFor(e, bombLifeTicks) in tl) &&
      (forall e :: e in tl && e.eventType == BombStartEvent ==>
        exists n :: n in tl && n.eventType == NoteOnEvent && e == BombFor(n, bombLifeTicks))
  {
    var tl := Timeline(s, bombLifeTicks, setTrack);
    var es := Emitted(s, bombLifeTicks, setTrack);
    EmittedBombsPaired(s, bombLifeTicks, setTrack);
    forall e | e in tl && e.eventType == NoteOnEvent ensures BombFor(e, bombLifeTicks) in tl {
      TimelineMembers(s, bombLifeTicks, setTrack, e);
      TimelineMembers(s, bombLifeTicks, setTrack, BombFor(e, bombLifeTicks));
    }
    forall e | e in tl && e.eventType == BombStartEvent
      ensures exists n :: n in tl && n.eventType == NoteOnEvent && e == BombFor(n, bombLifeTicks)
    {
      TimelineMembers(s, bombLifeTicks, setTrack, e);
      var n :| n in es && n.eventType == NoteOnEvent && e == BombFor(n, bombLifeTicks);
      TimelineMembers(s, bombLifeTicks, setTrack, n);
    }
  }

  /** Forwarded messages carry time 0 and, with tagging on, channel 0; the
      track is the tagged channel, so it stays within `0..trackMax`. */
  lemma {:induction false} TimelineTracks(s: seq<Message>, bombLifeTicks: int, setTrack: bool, trackMax: int)
    ensures forall e :: e in Timeline(s, bombLifeTicks, setTrack) ==>
      e.msg.delta == 0 && (setTrack ==> e.msg.channel == 0) && (!setTrack ==> e.track == 0)
    ensures setTrack && ChannelsTagged(s, trackMax) ==>
      forall e :: e in Timeline(s, bombLifeTicks, setTrack) ==> 0 <= e.track <= trackMax
  {
    forall e | e in Timeline(s, bombLifeTicks, setTrack)
      ensures e.msg.delta == 0 && (setTrack ==> e.msg.channel == 0) && (!setTrack ==> e.track == 0)
      ensures setTrack && ChannelsTagged(s, trackMax) ==> 0 <= e.track <= trackMax
    {
      TimelineMembers(s, bombLifeTicks, setTrack, e);
      EmittedSource(s, bombLifeTicks, setTrack, e);
    }
  }

  lemma {:induction false} TimelineTicksBound(s: seq<Message>, bombLifeTicks: int, setTrack: bool)
    requires forall i :: 0 <= i < |s| ==> s[i].delta >= 0
    ensures forall e :: e in Timeline(s, bombLifeTicks, setTrack) ==>
      e.ticks >= if e.eventType == BombStartEvent then -bombLifeTicks else 0
  {
    EmittedTicksBound(s, bombLifeTicks, setTrack);
    forall e | e in Timeline(s, bombLifeTicks, setTrack)
      ensures e.ticks >= if e.eventType == BombStartEvent then -bombLifeTicks else 0
    {
      TimelineMembers(s, bombLifeTicks, setTrack, e);
    }
  }

  /** The body of the loop of `load_midi_events` for message `msg` heard at
      `ticks`: appends its `note_on` or `note_off` event and, after a
      `note_on`, its `bomb_start` event. */
  method AppendEvents(events: seq<MidiEvent>, msg: Message, ticks: int, bombLifeTicks: int, setTrack: bool)
      returns (events': seq<MidiEvent>)
    ensures events' == events + EventsFor(msg, ticks, bombLifeTicks, setTrack)
  {
    events' := events;
    if msg.msgType == NoteOnMsg || msg.msgType == NoteOffMsg {
      var trackType := if setTrack then msg.channel else 0;
      var forwarded := msg.(delta := 0, channel := if setTrack then 0 else msg.channel);
      var e := MidiEvent(ticks, if msg.msgType == NoteOnMsg then NoteOnEvent else NoteOffEvent, trackType, forwarded, None);
      events' := events' + [e];
      if msg.msgType == NoteOnMsg {
        var bombStartTicks := ticks - bombLifeTicks;
        events' := events' + [MidiEvent(bombStartTicks, BombStartEvent, trackType, forwarded, Some(ticks))];
        assert events' == events + [e, BombFor(e, bombLifeTicks)];
      }
    } else {
      assert events' == events + [];
    }
  }

  /** Builds the timeline of a merged message stream: the absolute time of
      each note message, its event, a `bomb_start` `bombLifeTicks` earlier
      for every `note_on`, and one stable sort by ticks. */
  method LoadMidiEvents(stream: seq<Message>, bombLifeTicks: int, setTrack: bool) returns (events: seq<MidiEvent>)
    ensures events == Timeline(stream, bombLifeTicks, setTrack)
    ensures SortedByTicks(events)
    ensures multiset(events) == multiset(Emitted(stream, bombLifeTicks, setTrack))
    ensures forall t :: AtTick(events, t) == AtTick(Emitted(stream, bombLifeTicks, setTrack), t)
    ensures |events| == CountMsg(stream, NoteOffMsg) + 2 * CountMsg(stream, NoteOnMsg)
    ensures CountEvents(events, NoteOnEvent) == CountEvents(events, BombStartEvent) == CountMsg(stream, NoteOnMsg)
    ensures forall e :: e in events && e.eventType == NoteOnEvent ==> BombFor(e, bombLifeTicks) in events
    ensures forall e :: e in events ==> e.msg.delta == 0 && (setTrack ==> e.msg.channel == 0) && (!setTrack ==> e.track == 0)
    ensures setTrack && ChannelsTagged(stream, DEFAULT_TRACK_MAX) ==>
      forall e :: e in events ==> 0 <= e.track <= DEFAULT_TRACK_MAX
  {
    events := [];
    var ticks := 0;
    for i := 0 to |stream|
      invariant ticks == SumDeltas(stream[..i])
      invariant events == Emitted(stream[..i], bombLifeTicks, setTrack)
    {
      EmittedStep(stream, i, bombLifeTicks, setTrack);
      var msg := stream[i];
      ticks := ticks + msg.delta;
      events := AppendEvents(events, msg, ticks, bombLifeTicks, setTrack);
    }
    assert stream[..|stream|] == stream;
    var emitted := events;
    events := StableSort(events);

    StableSortSortsAndPermutes(emitted);
    forall t ensures AtTick(events, t) == AtTick(emitted, t) {
      StableSortIsStable(emitted, t);
    }
    TimelineCounts(stream, bombLifeTicks, setTrack);
    TimelineBombsPaired(stream, bombLifeTicks, setTrack);
    TimelineTracks(stream, bombLifeTicks, setTrack, DEFAULT_TRACK_MAX);
  }

  /** Two `note_on`s, pitch 60 at 0 ms and pitch 72 one second later, with a
      lead time of 500 ms: each bomb starts half a second before its note and
      the sort interleaves them. */
  lemma TimelineExample()
    ensures var on60 := Message(NoteOnMsg, 0, 60, 0);
      var on72 := Message(NoteOnMsg, 1000, 72, 0);
      var n60 := MidiEvent(0, NoteOnEvent, 0, on60, None);
      var n72 := MidiEvent(1000, NoteOnEvent, 0, on72.(delta := 0), None);
      Timeline([on60, on72], 500, false)
        == [BombFor(n60, 500), n60, BombFor(n72, 500), n72]
  {
    var on60 := Message(NoteOnMsg, 0, 60, 0);
    var on72 := Message(NoteOnMsg, 1000, 72, 0);
    var n60 := MidiEvent(0, NoteOnEvent, 0, on60, None);
    var n72 := MidiEvent(1000, NoteOnEvent, 0, on72.(delta := 0), None);
    var s := [on60, on72];
    var b60, b72 := BombFor(n60, 500), BombFor(n72, 500);
    assert s[..1] == [on60];
    assert [on60][..0] == [];
    assert SumDeltas([on60]) == 0;
    assert SumDeltas(s) == 1000;
    assert Emitted([on60], 500, false) == [n60, b60];
    assert Emitted(s, 500, false) == [n60, b60] + [n72, b72];
    var es := [n60, b60, n72, b72];
    assert es[..3] == [n60, b60, n72];
    assert es[..3][..2] == [n60, b60];
    assert es[..3][..2][..1] == [n60];
    assert StableSort([n60]) == [n60];
    assert InsertByTicks([n60], b60) == [b60, n60] by {
      assert [n60][..0] == [];
    }
    assert StableSort(es[..3][..2]) == [b60, n60];
    assert StableSort(es[..3]) == [b60, n60, n72];
    assert InsertByTicks([b60, n60, n72], b72) == [b60, n60, b72, n72] by {
      assert [b60, n60, n72][..2] == [b60, n60];
    }
    assert StableSort(es) == [b60, n60, b72, n72];
    assert Emitted(s, 500, false) == es;
    assert Timeline(s, 500, false) == StableSort(es);
  }
}
