/**
  The animated entities of the visualizer and the arithmetic they rest on:
  the virtual clock, the pitch-to-x mapping, the falling `Bomb` and the
  frame-indexed `Explosion` that a sounding note sets off.

  Images are opaque handles; removing a sprite from its groups (`kill()`) is
  the `done` flag.
 */
module Visualizer {
  import opened PyMath
  import opened Tools

  /** Wait before the first bomb appears. */
  const FIRST_WAIT_MS := 1000
  /** Time a bomb takes to fall from the top to the bottom of the area. */
  const BOMB_LIFE_MS := 6000
  /** Offset of the virtual clock from the wall clock. */
  const MY_TICKS_DIFF := BOMB_LIFE_MS + FIRST_WAIT_MS
  /** Lifetime of an explosion animation. */
  const EXPLOSION_LIFE_TICKS := 1000
  /** How far below the area's bottom edge a bomb's top comes to rest, in pixels. */
  const BOMB_BOTTOM_MARGIN := 20

  type Image = nat

  /** A screen rectangle as pygame keeps it. */
  datatype Rect = Rect(left: int, top: int, width: int, height: int) {
    function Bottom(): int { top + height }
  }

  /** What the pitch-to-x mapping depends on: the area bombs fall in and the
      lowest and highest `note_on` pitch of the piece. */
  datatype Stage = Stage(bombArea: Rect, noteL: int, noteH: int)

  // ---------------------------------------------------------------------------
  // Virtual clock

  /** The virtual tick of a wall-clock reading in milliseconds. */
  function GetMyTick(wallTicks: int): int {
    wallTicks - MY_TICKS_DIFF
  }

  /** The virtual clock runs with the wall clock: it keeps order and
      elapsed time, and virtual tick 0 is wall time 7000. */
  lemma MyTickFollowsWallClock(wall1: int, wall2: int)
    ensures GetMyTick(wall2) - GetMyTick(wall1) == wall2 - wall1
    ensures wall1 <= wall2 ==> GetMyTick(wall1) <= GetMyTick(wall2)
    ensures GetMyTick(MY_TICKS_DIFF) == 0
  {
  }

  // ---------------------------------------------------------------------------
  // Pitch to x

  /** The x coordinate of a note: the pitch mapped linearly from
      `noteL..noteH` onto the width of the bomb area, truncated. */
  function CalcXFromNote(stage: Stage, note: int): int
    requires stage.noteH != stage.noteL
  {
    stage.bombArea.left
      + TruncDiv(stage.bombArea.width * (note - stage.noteL), stage.noteH - stage.noteL)
  }

  /** The lowest pitch lands on the left edge and the highest on the right edge. */
  lemma CalcXEnds(stage: Stage)
    requires stage.noteH != stage.noteL
    ensures CalcXFromNote(stage, stage.noteL) == stage.bombArea.left
    ensures CalcXFromNote(stage, stage.noteH) == stage.bombArea.left + stage.bombArea.width
  {
    var w, d := stage.bombArea.width, stage.noteH - stage.noteL;
    assert w * (stage.noteL - stage.noteL) == 0;
    assert w * (stage.noteH - stage.noteL) == w * d;
    TruncDivExact(w, d);
  }

  /** Higher notes never lie left of lower ones. */
  lemma CalcXMonotone(stage: Stage, note1: int, note2: int)
    requires stage.noteL < stage.noteH && 0 <= stage.bombArea.width
    requires note1 <= note2
    ensures CalcXFromNote(stage, note1) <= CalcXFromNote(stage, note2)
  {
    MulMonotone(stage.bombArea.width, note1 - stage.noteL, note2 - stage.noteL);
    TruncDivMonotone(stage.bombArea.width * (note1 - stage.noteL),
                     stage.bombArea.width * (note2 - stage.noteL), stage.noteH - stage.noteL);
  }

  /** Every pitch of the piece maps inside the bomb area. */
  lemma CalcXWithinArea(stage: Stage, note: int)
    requires stage.noteL < stage.noteH && 0 <= stage.bombArea.width
    requires stage.noteL <= note <= stage.noteH
    ensures stage.bombArea.left <= CalcXFromNote(stage, note) <= stage.bombArea.left + stage.bombArea.width
  {
    CalcXEnds(stage);
    CalcXMonotone(stage, stage.noteL, note);
    CalcXMonotone(stage, note, stage.noteH);
  }

  // ---------------------------------------------------------------------------
  // Explosion

  /** The frame an explosion shows `pastT` ms after it started: the elapsed
      share of its lifetime scaled to the last frame index, capped there. */
  function FrameAt(imgIdMax: int, pastT: int): int {
    Min(TruncDiv(imgIdMax * pastT, EXPLOSION_LIFE_TICKS), imgIdMax)
  }

  /** Later times never show earlier frames. */
  lemma FrameAtMonotone(imgIdMax: int, pastT1: int, pastT2: int)
    requires 0 <= imgIdMax && pastT1 <= pastT2
    ensures FrameAt(imgIdMax, pastT1) <= FrameAt(imgIdMax, pastT2)
  {
    MulMonotone(imgIdMax, pastT1, pastT2);
    TruncDivMonotone(imgIdMax * pastT1, imgIdMax * pastT2, EXPLOSION_LIFE_TICKS);
  }

  /** From its start on, an explosion shows a frame that exists; from the end
      of its lifetime on, it shows the last one. */
  lemma FrameAtBounds(imgIdMax: int, pastT: int)
    requires 0 <= imgIdMax && 0 <= pastT
    ensures 0 <= FrameAt(imgIdMax, pastT) <= imgIdMax
    ensures pastT >= EXPLOSION_LIFE_TICKS ==> FrameAt(imgIdMax, pastT) == imgIdMax
  {
    MulNonNegative(imgIdMax, pastT);
    if pastT >= EXPLOSION_LIFE_TICKS {
      MulMonotone(imgIdMax, EXPLOSION_LIFE_TICKS, pastT);
      TruncDivExact(imgIdMax, EXPLOSION_LIFE_TICKS);
      TruncDivMonotone(imgIdMax * EXPLOSION_LIFE_TICKS, imgIdMax * pastT, EXPLOSION_LIFE_TICKS);
    }
  }

  /** The burst a sounding note sets off at the bottom of the bomb area. */
  class Explosion {
    const images: seq<Image>
    const centerX: int
    const centerY: int
    const imgIdMax: int
    const iniTick: int
    const endTick: int
    var curImgId: int
    var image: Image
    var done: bool

    ghost predicate Valid()
      reads this
    {
      && |images| > 0
      && imgIdMax == |images| - 1
      && 0 <= curImgId <= imgIdMax
      && image == images[curImgId]
      && endTick == iniTick + EXPLOSION_LIFE_TICKS
    }

    /** Starts the explosion of note event `e` at the current frame tick
        `now`, showing the first of the track's `images`. */
    constructor (e: MidiEvent, images: seq<Image>, stage: Stage, now: int)
      requires |images| > 0
      requires stage.noteH != stage.noteL
      ensures Valid()
      ensures this.images == images && curImgId == 0 && !done
      ensures centerX == CalcXFromNote(stage, e.msg.note) && centerY == stage.bombArea.Bottom()
      ensures iniTick == now && endTick == now + EXPLOSION_LIFE_TICKS
    {
      this.images := images;
      image := images[0];
      centerX := CalcXFromNote(stage, e.msg.note);
      centerY := stage.bombArea.Bottom();
      curImgId := 0;
      imgIdMax := |images| - 1;
      iniTick := now;
      endTick := now + EXPLOSION_LIFE_TICKS;
      done := false;
    }

    /** Advances the animation to the frame due at virtual tick `now`, never
        backwards, and ends it once its lifetime has passed. */
    method Update(now: int)
      requires Valid()
      modifies this
      ensures Valid()
      ensures curImgId == Max(old(curImgId), FrameAt(imgIdMax, now - iniTick))
      ensures old(curImgId) <= curImgId
      ensures done == (old(done) || now - iniTick >= EXPLOSION_LIFE_TICKS)
    {
      var pastT := now - iniTick;
      var imgId := Min(TruncDiv(imgIdMax * pastT, EXPLOSION_LIFE_TICKS), imgIdMax);
      if imgId > curImgId {
        image := images[imgId];
        curImgId := imgId;
      }
      if pastT >= EXPLOSION_LIFE_TICKS {
        done := true;
      }
    }
  }

  // ---------------------------------------------------------------------------
  // Bomb

  /** A bomb falling from the top of the bomb area so that it lands when its
      note sounds. */
  class Bomb {
    const evt: MidiEvent
    const image: Image
    const centerX: int
    const height: int
    const iniTicks: int
    const endTicks: int
    const iniY: int
    const endY: int
    var y: int
    var updateCount: nat
    var done: bool

    /** The bomb of `bomb_start` event `e`, dispatched at frame tick
        `iniTicks`, drawn with `image` of height `imageHeight` standing on the
        top edge of the bomb area. */
    constructor (e: MidiEvent, iniTicks: int, image: Image, imageHeight: int, stage: Stage)
      requires e.bombEndTicks.Some?
      requires stage.noteH != stage.noteL
      ensures evt == e && this.image == image && height == imageHeight
      ensures centerX == CalcXFromNote(stage, e.msg.note)
      ensures this.iniTicks == iniTicks && endTicks == e.bombEndTicks.value
      ensures iniY == stage.bombArea.top - imageHeight && y == iniY
      ensures endY == stage.bombArea.Bottom() - imageHeight + BOMB_BOTTOM_MARGIN
      ensures updateCount == 0 && !done
    {
      evt := e;
      this.image := image;
      centerX := CalcXFromNote(stage, e.msg.note);
      height := imageHeight;
      y := stage.bombArea.top - imageHeight;
      this.iniTicks := iniTicks;
      endTicks := e.bombEndTicks.value;
      iniY := stage.bombArea.top - imageHeight;
      endY := stage.bombArea.Bottom() - imageHeight + BOMB_BOTTOM_MARGIN;
      updateCount := 0;
      done := false;
    }

    /** The y the bomb should have at tick `curTicks`: linear in time, at
        `iniY` when it starts and at `endY` when its note sounds. */
    function CalcNewY(curTicks: int): (newY: int)
      requires endTicks != iniTicks
      ensures curTicks == iniTicks ==> newY == iniY
    {
      iniY + TruncDiv((endY - iniY) * (curTicks - iniTicks), endTicks - iniTicks)
    }

    /** Moves the bomb to where it should be at virtual tick `now`, never up,
        and ends it once its note's tick is reached. */
    method Update(now: int)
      requires endTicks != iniTicks
      modifies this
      ensures updateCount == old(updateCount) + 1
      ensures y == Max(old(y), CalcNewY(now))
      ensures old(y) <= y
      ensures done == (old(done) || now >= endTicks)
    {
      updateCount := updateCount + 1;
      var ticks := now;
      var newY := CalcNewY(ticks);
      if newY > y {
        y := newY;
      }
      if ticks >= endTicks {
        done := true;
      }
    }
  }

  /** A bomb reaches its resting height exactly at its note's tick. */
  lemma CalcNewYEnds(b: Bomb)
    requires b.endTicks != b.iniTicks
    ensures b.CalcNewY(b.iniTicks) == b.iniY
    ensures b.CalcNewY(b.endTicks) == b.endY
  {
    TruncDivExact(b.endY - b.iniY, b.endTicks - b.iniTicks);
  }

  /** While a bomb falls forward in time and downwards, its target height
      stays between its start and its resting height. */
  lemma CalcNewYWithinFall(b: Bomb, cur: int)
    requires b.iniTicks < b.endTicks && b.iniY <= b.endY
    requires b.iniTicks <= cur <= b.endTicks
    ensures b.iniY <= b.CalcNewY(cur) <= b.endY
  {
    var dy, dt := b.endY - b.iniY, b.endTicks - b.iniTicks;
    MulNonNegative(dy, cur - b.iniTicks);
    MulMonotone(dy, cur - b.iniTicks, dt);
    TruncDivMonotone(dy * (cur - b.iniTicks), dy * dt, dt);
    TruncDivExact(dy, dt);
  }

  /** A bomb's target height never decreases as time goes on. */
  lemma CalcNewYMonotone(b: Bomb, cur1: int, cur2: int)
    requires b.iniTicks < b.endTicks && b.iniY <= b.endY
    requires cur1 <= cur2
    ensures b.CalcNewY(cur1) <= b.CalcNewY(cur2)
  {
    MulMonotone(b.endY - b.iniY, cur1 - b.iniTicks, cur2 - b.iniTicks);
    TruncDivMonotone((b.endY - b.iniY) * (cur1 - b.iniTicks), (b.endY - b.iniY) * (cur2 - b.iniTicks), b.endTicks - b.iniTicks);
  }
}
