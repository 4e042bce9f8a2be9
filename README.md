# MIDI Visualizer timing engine, in Dafny

This project models the timing core of a MIDI visualizer. While the piece
plays, a bomb falls for each note and lands exactly when the note sounds.
Landing sets off an explosion animation. At the same time, the note messages
are forwarded to a MIDI output port.

The model covers two parts:

- **Timeline builder** (`tools.py`, module `Tools`, file `tools.dfy`).
  - Walks the merged message stream and adds up the integer millisecond
    deltas into absolute ticks.
  - Emits a `note_on`/`note_off` event per note message.
  - For every `note_on`, synthesises a `bomb_start` event `bomb_life_ticks`
    earlier.
  - Stable-sorts the result by tick.
  - Also covers the note range (`get_note_range`) and the per-track channel
    tagging (`set_track_type`).
- **Scheduler and entities** (`visualizer.py`).
  - Module `Visualizer`, file `visualizer.dfy`:
    - the virtual clock (wall ticks minus a constant 7000 ms);
    - the pitch-to-x mapping;
    - the `Explosion` frame-index state machine;
    - the falling `Bomb` with its linear interpolation.
  - Module `Playback`, file `playback.dfy`: the frame loop of `main`, as a
    `Scheduler` class.
    - It holds the cursor `evt_p` and `finishing_start_tick`.
    - A `Step` dispatches every due event in timeline order and returns what
      it dispatched, the messages it sent and the sprites it spawned.
    - It then runs the final wait.
- **Arithmetic** (module `PyMath`, file `pymath.dfy`). Python's `int(a * b / c)`
  truncates toward zero. `TruncDiv` writes that out for every sign.

Sending a message is modelled as appending it to the scheduler's `sent`
sequence. `kill()` is modelled as a `done` flag. Images are opaque handles.

Behaviour of the code that the model keeps:

- A `Bomb` and an `Explosion` take the current frame tick as their start
  (visualizer.py:171, visualizer.py:77), not the tick of their event.
- The virtual clock's offset is the constant `BOMB_LIFE_MS + FIRST_WAIT_MS`
  (visualizer.py:58).
- `calc_x_from_note` does not clamp pitches. It divides by
  `NOTE_H - NOTE_L`, so equal bounds are a precondition.
- `calc_new_y` divides by `end_ticks - ini_ticks` without a guard, so equal
  ticks are a precondition.
- `y` only grows because of the guard in `Bomb.update`. `calc_new_y` itself
  is not clamped.
- The builder raises no parse error. Any stream is accepted, including one
  with negative deltas.

## Model

| member | source | states |
|---|---|---|
| `Tools.GetNoteRange` | tools.py:8-21 | Every `note_on` pitch lies in `[noteMin, noteMax]`, and both bounds are the pitch of some `note_on`. Without any `note_on` the result is `(200, -1)`. |
| `Tools.MidiFile.SetTrackType` | tools.py:72-77 | The new track list is `TaggedFrom` the old one. In track `k`, every `note_on`/`note_off` gets channel `min(k, trackMax)`. Every other message, and every other field, is left unchanged. Track count and lengths are kept. mido's channel range check is not modelled (see Left out). |
| `Tools.TaggedChannels` | tools.py:72-77 | After tagging with `trackMax >= 0`, every track's note channels lie in `0..trackMax`. |
| `Tools.MergedTagged` | tools.py:72-77 | A merge of tagged tracks, which keeps each message and rewrites only its time, is itself tagged. |
| `Tools.Forwarded` | tools.py:98-101 | The stored message keeps its type and note, its time becomes 0, and with tagging on its borrowed channel is reset to 0. |
| `Tools.EventsFor` | tools.py:97-112 | A `note_on` yields its event plus one `bomb_start`. That `bomb_start` ends at the note's tick, starts `bombLifeTicks` earlier and has the same track and message. A `note_off` yields one event with no synthesis. Any other message yields nothing. |
| `Tools.EventsForCounts` | tools.py:97-112 | One message yields one `note_on` event and one `bomb_start` if it is a `note_on`, one `note_off` event if it is a `note_off`, and none otherwise. |
| `Tools.SumDeltas` | tools.py:96 | The running `ticks`: the sum of the deltas so far. |
| `Tools.Emitted` | tools.py:95-112 | The events appended by the loop, in order. Its properties are stated by `EmittedAt`, `EmittedSource`, `EmittedCounts`, `EmittedBombsPaired` and `EmittedTicksBound`. |
| `Tools.EmittedAt` | tools.py:95-105 | The events of message `i` sit right after those of the earlier messages. They carry the sum of the deltas of messages `0..i`. |
| `Tools.EmittedSource` | tools.py:95-112 | Every appended event comes from some note message and carries that message's accumulated tick. |
| `Tools.EmittedCounts` | tools.py:97-112 | Before the sort there are `#note_off + 2·#note_on` events. There are as many `bomb_start` events as `note_on` events and messages. |
| `Tools.EmittedBombsPaired` | tools.py:107-112 | Every `note_on` event has its `bomb_start`, and every `bomb_start` has the `note_on` it was made for. |
| `Tools.EmittedTicksBound` | tools.py:96-109 | With non-negative deltas, note events are at tick ≥ 0 and bombs at tick ≥ `-bombLifeTicks`. |
| `Tools.StableSortSortsAndPermutes` | tools.py:114 | The sorted list is non-decreasing by ticks and is a permutation of its input. |
| `Tools.StableSortIsStable` | tools.py:114 | For every tick value, the events at that tick appear in the same order as before the sort. |
| `Tools.StableSortCounts` | tools.py:114 | Sorting keeps the number of events of each type. |
| `Tools.InsertByTicks` | tools.py:114 | Places one event after every event whose tick is not greater. Its properties are stated by `InsertSorted`, `InsertPermutes` and `InsertStable`. |
| `Tools.StableSort` | tools.py:114 | Python's `list.sort(key=ticks)` as an insertion sort. Its properties are stated by `StableSortSortsAndPermutes`, `StableSortIsStable` and `StableSortCounts`. |
| `Tools.InsertSorted` | tools.py:114 | Inserting one event into a sorted list keeps it sorted. |
| `Tools.InsertPermutes` | tools.py:114 | Inserting one event adds exactly that event to the multiset of events. |
| `Tools.InsertStable` | tools.py:114 | The inserted event comes after every earlier event with the same tick. |
| `Tools.TimelineCounts` | tools.py:104-114 | The returned timeline has `#note_off + 2·#note_on` events. There are as many `bomb_start` as `note_on` events. |
| `Tools.TimelineBombsPaired` | tools.py:107-114 | In the sorted timeline every `note_on` has its `bomb_start`, and every `bomb_start` has its `note_on`. |
| `Tools.Timeline` | tools.py:87-115 | The stable sort of `Emitted`. Its properties are stated by the `Timeline*` lemmas and `LoadMidiEvents`. |
| `Tools.TimelineTracks` | tools.py:92-104 | Forwarded messages have time 0, and with tagging on they have channel 0. With tagging on the track is the message's channel, so on a stream whose note channels lie in `0..trackMax` it lies there too. With tagging off the track is 0. |
| `Tools.TaggedTimelineTracks` | tools.py:72-104 | With tagging on, over a merge of the tracks `set_track_type` produced, every timeline event is that of a note of some track `k`, with the same type and pitch, and records `min(k, trackMax)` as its track. With `trackMax >= 0` every track lies in `0..trackMax`. |
| `Tools.TimelineTicksBound` | tools.py:96-114 | With non-negative deltas, every timeline tick is ≥ `-bombLifeTicks`. Note events are at tick ≥ 0. |
| `Tools.LoadMidiEvents` | tools.py:87-115 | The loop returns the stable sort of the appended events. The result is sorted, a permutation of the appended events, and stable. It has the event counts above and pairs every `note_on` with its bomb. Forwarded messages have time 0 and, with tagging on, channel 0. With tagging on and the stream's note channels in `0..4`, every track lies in `0..4`. |
| `Tools.TimelineExample` | tools.py:104-114 | Example: note_on 60 at 0 ms and note_on 72 at 1000 ms, with a 500 ms lead time. The timeline is bomb(-500), note(0), bomb(500), note(1000). |
| `Tools.AppendEvents` | tools.py:96-112 | One pass of the loop body appends exactly the events `EventsFor` gives for the message at its accumulated tick. Nothing else in the list changes. |
| `PyMath.TruncDiv` | visualizer.py:54 | `int(a / b)` agrees with `/` on non-negative operands. It is non-negative when the operands have the same sign and non-positive otherwise. |
| `PyMath.TruncDivRemainder` | visualizer.py:54 | For every sign, `q = int(a / b)` truncates toward zero. `q * b` lies on the side of zero where `a` lies, no further from zero than `a`, and less than one divisor short of it. |
| `PyMath.TruncDivSign` | visualizer.py:54 | `int(a / b) * b` has the sign of `a`. |
| `PyMath.TruncDivMonotone` | visualizer.py:82 | For a positive divisor, the truncated quotient is monotone in the dividend. |
| `PyMath.TruncDivExact` | visualizer.py:116 | `int(k * b / b) == k` for every non-zero `b` and every `k`. |
| `Visualizer.GetMyTick` | visualizer.py:59-60 | The wall tick minus 7000. Its properties are stated by `MyTickFollowsWallClock`. |
| `Visualizer.CalcXFromNote` | visualizer.py:52-55 | `left + int(width * (note - NOTE_L) / (NOTE_H - NOTE_L))`. Its properties are stated by `CalcXEnds`, `CalcXMonotone` and `CalcXWithinArea`. |
| `Visualizer.FrameAt` | visualizer.py:81-82 | `min(int(img_id_max * past_t / life_ticks), img_id_max)`. Its properties are stated by `FrameAtMonotone` and `FrameAtBounds`. |
| `Visualizer.MyTickFollowsWallClock` | visualizer.py:58-60 | The virtual tick is the wall tick minus 7000. It keeps order and elapsed time. |
| `Visualizer.CalcXEnds` | visualizer.py:52-55 | `NOTE_L` maps to the left edge of the bomb area and `NOTE_H` to `left + width`. |
| `Visualizer.CalcXMonotone` | visualizer.py:52-55 | For `NOTE_L < NOTE_H` and a non-negative width, a higher pitch never maps further left. |
| `Visualizer.CalcXWithinArea` | visualizer.py:52-55 | Pitches in `[NOTE_L, NOTE_H]` map into `[left, left + width]`. |
| `Visualizer.FrameAtMonotone` | visualizer.py:81-82 | The frame due at a later elapsed time is never earlier. |
| `Visualizer.FrameAtBounds` | visualizer.py:81-82 | For non-negative elapsed time, the frame lies in `[0, img_id_max]`. Once the lifetime has passed, it is `img_id_max`. |
| `Visualizer.Explosion.constructor` | visualizer.py:66-78 | An explosion starts at frame 0 at the current frame tick. It ends `life_ticks` later, centred at the note's x on the bottom edge of the area. |
| `Visualizer.Explosion.Update` | visualizer.py:80-87 | The frame becomes the larger of the old frame and the frame now due, so it never decreases and stays within `[0, img_id_max]`. The explosion is done once `past_t >= life_ticks`. |
| `Visualizer.Bomb.constructor` | visualizer.py:100-112 | The bomb starts at the frame tick standing on the area's top edge (y = top - height). It ends at the event's `bomb_end_ticks`. Its target height is `bottom - height + 20`. |
| `Visualizer.Bomb.CalcNewY` | visualizer.py:114-117 | The linear interpolation, truncated. At `ini_ticks` it gives `ini_y`. |
| `Visualizer.CalcNewYEnds` | visualizer.py:114-117 | The computed y is `ini_y` at `ini_ticks` and `end_y` at `end_ticks`, so the bomb rests when its note sounds. |
| `Visualizer.CalcNewYWithinFall` | visualizer.py:114-117 | For `ini_ticks <= t <= end_ticks` with `ini_ticks < end_ticks` and `ini_y <= end_y`, the computed y lies between `ini_y` and `end_y`. |
| `Visualizer.CalcNewYMonotone` | visualizer.py:114-117 | For `ini_ticks < end_ticks` and `ini_y <= end_y`, the computed y is monotone in the tick. |
| `Visualizer.Bomb.Update` | visualizer.py:119-126 | `y` becomes the larger of the old y and `calc_new_y(now)`, so it never decreases. The update count grows by one. The bomb is done exactly when `now >= end_ticks`. |
| `Playback.DueEnd` | visualizer.py:168-178 | The stopping point of the dispatch loop. Every event it passes is due, and it stops at the end or at the first event not yet due. |
| `Playback.SentFor` | visualizer.py:170-176 | A `note_on` or `note_off` event sends its message, a `bomb_start` sends nothing. |
| `Playback.SpawnFor` | visualizer.py:170-176 | A `bomb_start` spawns a bomb, a `note_on` an explosion, both at the frame tick. A `note_off` spawns nothing. |
| `Playback.NoteMessages` | visualizer.py:168-178 | The messages sent while dispatching a run of events, in order. Its properties are stated by `NoteMessagesCount` and `DispatchDue`. |
| `Playback.Spawns` | visualizer.py:168-178 | The sprites spawned while dispatching a run of events, in order. `DispatchDue` states them. |
| `Playback.DueEndIdempotent` | visualizer.py:168 | A second frame at the same tick dispatches nothing. |
| `Playback.DueEndAllDue` | visualizer.py:168 | On a sorted timeline, nothing after the cursor is due, so no due event is left behind. |
| `Playback.DueEndMonotone` | visualizer.py:168 | A later tick never stops the cursor earlier. |
| `Playback.DueEndStops` | visualizer.py:168 | Any point whose passed events are all due, and that is the end or an event not yet due, is where the loop stops. |
| `Playback.NoteMessagesCount` | visualizer.py:170-176 | One message is sent per `note_on` and per `note_off` event, and none per `bomb_start`. |
| `Playback.RunDispatchesInOrder` | visualizer.py:165-178 | Over any sequence of frames, the dispatched events are exactly the stretch of the timeline the cursor passed. Each is dispatched once, in order. |
| `Playback.RunCompletes` | visualizer.py:165-186 | On a sorted timeline, once a frame's tick reaches the last event's tick, every event has been dispatched. |
| `Playback.Scheduler.constructor` | visualizer.py:160-163 | The cursor starts at 0, there is no finishing tick yet and nothing has been sent. |
| `Playback.DispatchEvent` | visualizer.py:169-176 | A `bomb_start` spawns a bomb and sends nothing. A `note_on` sends its message and spawns an explosion. A `note_off` only sends its message. Both sprites start at the frame tick. |
| `Playback.DispatchDue` | visualizer.py:168-178 | The loop stops at `DueEnd` and dispatches exactly the events between the cursor and that point, in order. It sends their note messages and spawns their sprites. |
| `Playback.Scheduler.Dispatch` | visualizer.py:166-178 | The cursor moves to `DueEnd`, and the events it passed are dispatched. `sent` grows by their note messages, so it stays the note messages of the dispatched prefix. |
| `Playback.Scheduler.Step` | visualizer.py:165-186 | The cursor never moves back and stops at `DueEnd`; the dispatched events are the slice it passed, and on a sorted timeline nothing after it is due. The messages sent are those of the dispatched `note_on`/`note_off` events, in order, so `sent` is always the note messages of the dispatched prefix. Each `bomb_start` spawns a bomb and each `note_on` an explosion, both started at the frame tick. `finishing_start_tick` is set once, the first time every event is dispatched. The run finishes exactly when every event is dispatched and `FINISH_WAIT_MS` has passed since then. |

## Left out

- Image and asset loading (`get_img_rect`, `load_image`, `load_seq_images`,
  the `load_images` class methods): this is file I/O through pygame. Images
  are opaque handles, and the per-track image list or image height is a
  parameter.
- `load_filtered_image`: cv2 pixel blending with a float alpha, plus a
  temporary file on disk.
- The computation of `BOMB_AREA` from float margins: the area is a given
  integer rectangle.
- mido file parsing and the merging of the tracks into one stream when the
  file is iterated. `LoadMidiEvents` and `GetNoteRange` take that merged
  stream. The merge is mido's, not this program's.
- Message fields other than type, time, note and channel (velocity and the
  rest).
- The float conversion `int(msg.time * 1000)`: the integer millisecond delta
  is given.
- The MIDI output port itself: sending is appending to `sent`.
- pygame display setup, sprite groups and drawing, the dirty-rectangle
  update, event polling (QUIT and ESC end the run) and the `clock.tick`
  frame limiter. Each frame's wall-clock reading is a parameter of `Step`.
- The `all.update()` call that updates every live sprite each frame: the
  update of each entity is modelled, not the group that iterates over them.
- Python's `list.sort` (Timsort, in place): it is modelled by the stable
  insertion sort `StableSort` on values, with the same result.
- Bomb and explosion rectangles: only the anchor point and the bomb's `y`
  are modelled. The rectangle's x and its size come from the image.
- Visualizer.Bomb.CalcNewY requires `end_ticks != ini_ticks`, because the
  source divides by zero there. This happens when a bomb is dispatched on
  the very tick its note sounds.
- Visualizer.Bomb.Update has the same precondition as `CalcNewY`.
- Visualizer.CalcXFromNote requires `NOTE_H != NOTE_L`, because the source
  divides by zero there, for example for a piece with a single pitch.
- Visualizer.Explosion.constructor requires a non-empty image list, because
  the source indexes `images[0]`.
- Float rounding: `TruncDiv` is the exact truncated quotient. Python computes
  `a * b / c` in floating point first. The two agree while the operands stay
  well below 2^52.
- Separate clock reads within one frame: the source reads `get_my_tick()`
  again for the explosion's start and for the final wait. The model uses the
  frame's single tick for all of them.
- Tools.MidiFile.SetTrackType does not model mido's `ValueError` when a
  channel outside `0..15` is written, which happens when `trackMax < 0`, or
  when `trackMax > 15` and the file has more than 16 tracks. The model
  writes `min(k, trackMax)` regardless. The program only ever calls it with
  `track_max = 4`, where every written channel lies in `0..4`.
- Tools.LoadMidiEvents takes the stream after `set_track_type` and mido's
  merge. The call at tools.py:92-93 is not in the method, and the merge is
  mido's. `Tools.TaggedTimelineTracks` links the tagging to the timeline,
  assuming that the merge keeps every message and rewrites only its time.
- Tools.LoadMidiEvents states its track bound for the default `track_max`
  of 4, the value `load_midi_events` uses. `Tools.TimelineTracks` states the
  bound for any `trackMax`.
