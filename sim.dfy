/** The simulator as the page runs it: one object holding the schedule
    cursors and the active notes and timing lines, set up once and then
    advanced by the animation-frame callback. The layers' DOM elements are
    their creation ordinals; removing an element from its layer appends its
    handle to that layer's removal log. */
module Simulator {
  import opened Schedule
  import opened Playfield
  import opened Pruning
  import opened Frame

  class Sim {
    /** 1: entities travel from top to bottom; -1: from bottom to top. */
    const direction: int
    /** The judgment line, as a fraction of the playfield height. */
    const judgeLineY: real

    /** Timestamp of the previous frame, in milliseconds. */
    var lastFrameTime: real
    /** Elapsed song time, in seconds. */
    var songTime: real
    var nextNoteTime: real
    /** Spawn slot of the next note; also the handle of its element. */
    var nextNoteIndex: nat
    var nextBarTime: real
    /** Grid slot of the next bar line (nextBarTime is this many measures). */
    ghost var nextBarIndex: nat
    var nextBeatTime: real
    /** Grid slot of the next beat line (nextBeatTime is this many beats). */
    ghost var nextBeatIndex: nat
    var activeNotes: seq<Note>
    var activeTimingLines: seq<TimingLine>
    /** Elements created in the beat layer so far: the next one's handle. */
    var linesCreated: nat
    /** Elements removed from the note layer, in removal order. */
    var removedNoteEls: seq<nat>
    /** Elements removed from the beat layer, in removal order. */
    var removedLineEls: seq<nat>

    /** The schedule cursors. */
    ghost function ClockState(): Clock
      reads this`songTime, this`nextNoteTime, this`nextNoteIndex, this`nextBarTime, this`nextBarIndex,
        this`nextBeatTime, this`nextBeatIndex
    {
      Clock(songTime, nextNoteTime, nextNoteIndex, nextBarTime, nextBarIndex, nextBeatTime, nextBeatIndex)
    }

    /** The simulator's state as the frame function sees it. */
    ghost function State(): World
      reads this`songTime, this`nextNoteTime, this`nextNoteIndex, this`nextBarTime, this`nextBarIndex,
        this`nextBeatTime, this`nextBeatIndex, this`activeNotes, this`activeTimingLines, this`linesCreated,
        this`removedNoteEls, this`removedLineEls
    {
      World(ClockState(), activeNotes, activeTimingLines, linesCreated, removedNoteEls, removedLineEls)
    }

    ghost predicate Valid()
      reads this`songTime, this`nextNoteTime, this`nextNoteIndex, this`nextBarTime, this`nextBarIndex,
        this`nextBeatTime, this`nextBeatIndex, this`activeNotes, this`activeTimingLines, this`linesCreated,
        this`removedNoteEls, this`removedLineEls
    {
      (direction == 1 || direction == -1) && Frame.Valid(State())
    }

    /** Set-up: the judgment line from the configured percentage, the clock
        at now, the schedule at zero and the bar line of time zero spawned,
        which moves the bar cursor one measure on. */
    constructor (judgeLinePercent: ParsedFloat, direction: int, now: real)
      requires direction == 1 || direction == -1
      ensures this.direction == direction
      ensures judgeLineY == JudgeLineY(judgeLinePercent)
      ensures lastFrameTime == now
      ensures State() == INITIAL
      ensures Valid()
    {
      this.direction := direction;
      judgeLineY := JudgeLineY(judgeLinePercent);
      activeNotes := [];
      activeTimingLines := [];
      linesCreated := 0;
      removedNoteEls := [];
      removedLineEls := [];
      lastFrameTime := now;
      songTime := 0.0;
      nextNoteTime := 0.0;
      nextNoteIndex := 0;
      nextBarTime := 0.0;
      nextBarIndex := 0;
      nextBeatTime := MEASURE_DURATION / 4.0;
      nextBeatIndex := 1;
      new;
      activeTimingLines := activeTimingLines + [CreateTimingLine(Bar, linesCreated)];
      linesCreated := linesCreated + 1;
      nextBarTime := nextBarTime + MEASURE_DURATION;
      nextBarIndex := nextBarIndex + 1;
      InitialValid();
    }

    /** The animation-frame callback at timestamp now (milliseconds): the
        frame lasts the time since the previous callback, in seconds. It keeps
        the simulator valid, and afterwards every cursor is past song time. */
    method Loop(now: real)
      requires Valid()
      modifies this
      ensures Valid()
      ensures lastFrameTime == now
      ensures State() == Step(old(State()), FrameSeconds(old(lastFrameTime), now), direction, judgeLineY)
      ensures nextNoteTime > songTime && nextBarTime > songTime && nextBeatTime > songTime
    {
      ghost var w := State();
      var dt := FrameSeconds(lastFrameTime, now);
      lastFrameTime := now;
      assert State() == w;
      Tick(dt);
      StepKeepsValid(w, dt, direction, judgeLineY);
    }

    /** One frame of dt seconds: advance song time, spawn every note, bar
        line and beat line that fell due, move everything, hide the notes at
        the judgment line and retire whatever left the field. */
    method Tick(dt: real)
      requires OnGrid(ClockState())
      modifies this`songTime, this`nextNoteTime, this`nextNoteIndex, this`nextBarTime, this`nextBarIndex,
        this`nextBeatTime, this`nextBeatIndex, this`activeNotes, this`activeTimingLines, this`linesCreated,
        this`removedNoteEls, this`removedLineEls
      ensures State() == Step(old(State()), dt, direction, judgeLineY)
    {
      ghost var w := State();
      Spawn(dt);
      var delta := Delta(dt, direction);
      UpdateNotes(delta);
      PruneNotes();
      UpdateLines(delta);
      PruneLines();
      StepInPhases(w, dt, direction, judgeLineY);
    }

    /** The spawning part of a frame: song time advances by dt and the three
        catch-up loops spawn, in this order, the due notes, bar lines and beat
        lines. */
    method Spawn(dt: real)
      requires OnGrid(ClockState())
      modifies this`songTime, this`nextNoteTime, this`nextNoteIndex, this`nextBarTime, this`nextBarIndex,
        this`nextBeatTime, this`nextBeatIndex, this`activeNotes, this`activeTimingLines, this`linesCreated
      ensures State() == Spawned(old(State()), dt)
    {
      ghost var w := State();
      songTime := songTime + dt;
      SpawnNotes();
      SpawnBars();
      SpawnBeats();
      SpawnedFrom(w, dt, State());
    }

    /** Spawns the notes of every slot whose time song time has reached. */
    method SpawnNotes()
      requires nextNoteTime == nextNoteIndex as real * SUB_INTERVAL
      modifies this`nextNoteTime, this`nextNoteIndex, this`activeNotes
      ensures nextNoteIndex == CatchUp(old(nextNoteIndex), SUB_INTERVAL, songTime)
      ensures nextNoteTime == nextNoteIndex as real * SUB_INTERVAL
      ensures activeNotes == old(activeNotes) + NewNotes(old(nextNoteIndex), nextNoteIndex)
    {
      ghost var k0 := nextNoteIndex;
      ghost var r := CatchUp(k0, SUB_INTERVAL, songTime);
      while songTime >= nextNoteTime
        invariant k0 <= nextNoteIndex <= r
        invariant nextNoteTime == nextNoteIndex as real * SUB_INTERVAL
        invariant nextNoteIndex == k0 || (nextNoteIndex - 1) as real <= songTime / SUB_INTERVAL
        invariant activeNotes == old(activeNotes) + NewNotes(k0, nextNoteIndex)
        decreases r - nextNoteIndex
      {
        GridCompare(nextNoteIndex, SUB_INTERVAL, songTime);
        var laneIndex := NOTE_PATTERN[nextNoteIndex % |NOTE_PATTERN|];
        var note := CreateNote(laneIndex, nextNoteIndex);
        NewNotesSnoc(k0, nextNoteIndex);
        activeNotes := activeNotes + [note];
        nextNoteIndex := nextNoteIndex + 1;
        nextNoteTime := nextNoteTime + SUB_INTERVAL;
      }
      GridCompare(nextNoteIndex, SUB_INTERVAL, songTime);
      CatchUpUnique(k0, SUB_INTERVAL, songTime, nextNoteIndex);
    }

    /** Spawns a bar line for every measure boundary song time has reached. */
    method SpawnBars()
      requires nextBarTime == nextBarIndex as real * MEASURE_DURATION
      modifies this`nextBarTime, this`nextBarIndex, this`activeTimingLines, this`linesCreated
      ensures nextBarIndex == CatchUp(old(nextBarIndex), MEASURE_DURATION, songTime)
      ensures nextBarTime == nextBarIndex as real * MEASURE_DURATION
      ensures linesCreated == old(linesCreated) + (nextBarIndex - old(nextBarIndex))
      ensures activeTimingLines == old(activeTimingLines) + NewLines(Bar, old(linesCreated), nextBarIndex - old(nextBarIndex))
    {
      ghost var k0 := nextBarIndex;
      ghost var r := CatchUp(k0, MEASURE_DURATION, songTime);
      while songTime >= nextBarTime
        invariant k0 <= nextBarIndex <= r
        invariant nextBarTime == nextBarIndex as real * MEASURE_DURATION
        invariant nextBarIndex == k0 || (nextBarIndex - 1) as real <= songTime / MEASURE_DURATION
        invariant linesCreated == old(linesCreated) + (nextBarIndex - k0)
        invariant activeTimingLines == old(activeTimingLines) + NewLines(Bar, old(linesCreated), nextBarIndex - k0)
        decreases r - nextBarIndex
      {
        GridCompare(nextBarIndex, MEASURE_DURATION, songTime);
        NewLinesSnoc(Bar, old(linesCreated), nextBarIndex - k0);
        activeTimingLines := activeTimingLines + [CreateTimingLine(Bar, linesCreated)];
        linesCreated := linesCreated + 1;
        nextBarTime := nextBarTime + MEASURE_DURATION;
        nextBarIndex := nextBarIndex + 1;
      }
      GridCompare(nextBarIndex, MEASURE_DURATION, songTime);
      CatchUpUnique(k0, MEASURE_DURATION, songTime, nextBarIndex);
    }

    /** Spawns a beat line for every quarter-measure boundary song time has
        reached, bar boundaries included. */
    method SpawnBeats()
      requires nextBeatTime == nextBeatIndex as real * BEAT_INTERVAL
      modifies this`nextBeatTime, this`nextBeatIndex, this`activeTimingLines, this`linesCreated
      ensures nextBeatIndex == CatchUp(old(nextBeatIndex), BEAT_INTERVAL, songTime)
      ensures nextBeatTime == nextBeatIndex as real * BEAT_INTERVAL
      ensures linesCreated == old(linesCreated) + (nextBeatIndex - old(nextBeatIndex))
      ensures activeTimingLines == old(activeTimingLines) + NewLines(Beat, old(linesCreated), nextBeatIndex - old(nextBeatIndex))
    {
      ghost var k0 := nextBeatIndex;
      ghost var r := CatchUp(k0, BEAT_INTERVAL, songTime);
      while songTime >= nextBeatTime
        invariant k0 <= nextBeatIndex <= r
        invariant nextBeatTime == nextBeatIndex as real * BEAT_INTERVAL
        invariant nextBeatIndex == k0 || (nextBeatIndex - 1) as real <= songTime / BEAT_INTERVAL
        invariant linesCreated == old(linesCreated) + (nextBeatIndex - k0)
        invariant activeTimingLines == old(activeTimingLines) + NewLines(Beat, old(linesCreated), nextBeatIndex - k0)
        decreases r - nextBeatIndex
      {
        GridCompare(nextBeatIndex, BEAT_INTERVAL, songTime);
        NewLinesSnoc(Beat, old(linesCreated), nextBeatIndex - k0);
        activeTimingLines := activeTimingLines + [CreateTimingLine(Beat, linesCreated)];
        linesCreated := linesCreated + 1;
        nextBeatTime := nextBeatTime + BEAT_INTERVAL;
        nextBeatIndex := nextBeatIndex + 1;
      }
      GridCompare(nextBeatIndex, BEAT_INTERVAL, songTime);
      CatchUpUnique(k0, BEAT_INTERVAL, songTime, nextBeatIndex);
    }

    /** Moves every note by delta and hides each note that is not yet hidden
        and has reached the judgment line. */
    method UpdateNotes(delta: real)
      modifies this`activeNotes
      ensures activeNotes == MovedNotes(old(activeNotes), delta, judgeLineY)
      ensures State() == NotesMoved(old(State()), delta, judgeLineY)
    {
      var i := 0;
      while i < |activeNotes|
        invariant 0 <= i <= |activeNotes| == |old(activeNotes)|
        invariant forall j :: 0 <= j < i ==> activeNotes[j] == MoveNote(old(activeNotes)[j], delta, judgeLineY)
        invariant forall j :: i <= j < |activeNotes| ==> activeNotes[j] == old(activeNotes)[j]
      {
        var note := activeNotes[i];
        note := note.(y := note.y + delta);
        if !note.hidden && note.y >= judgeLineY {
          note := note.(hidden := true);
        }
        activeNotes := activeNotes[i := note];
        i := i + 1;
      }
    }

    /** Keeps the notes still on the field, in order, and removes the element
        of every other one. */
    method PruneNotes()
      modifies this`activeNotes, this`removedNoteEls
      ensures activeNotes == Kept(old(activeNotes), NoteStays)
      ensures removedNoteEls == old(removedNoteEls) + Map(Dropped(old(activeNotes), NoteStays), NoteEl)
      ensures State() == NotesPruned(old(State()))
    {
      var notes := activeNotes;
      var kept: seq<Note> := [];
      var i := 0;
      while i < |notes|
        invariant 0 <= i <= |notes|
        invariant kept == Kept(notes[..i], NoteStays)
        invariant removedNoteEls == old(removedNoteEls) + Map(Dropped(notes[..i], NoteStays), NoteEl)
      {
        var note := notes[i];
        FilterStep(notes, i, NoteStays, NoteEl);
        if note.y > FIELD_BOTTOM || note.y < FIELD_TOP {
          removedNoteEls := removedNoteEls + [note.el];
        } else {
          kept := kept + [note];
        }
        i := i + 1;
      }
      assert notes[..i] == notes;
      activeNotes := kept;
    }

    /** Moves every timing line by delta. */
    method UpdateLines(delta: real)
      modifies this`activeTimingLines
      ensures activeTimingLines == MovedLines(old(activeTimingLines), delta)
      ensures State() == LinesMoved(old(State()), delta)
    {
      var i := 0;
      while i < |activeTimingLines|
        invariant 0 <= i <= |activeTimingLines| == |old(activeTimingLines)|
        invariant forall j :: 0 <= j < i ==> activeTimingLines[j] == MoveLine(old(activeTimingLines)[j], delta)
        invariant forall j :: i <= j < |activeTimingLines| ==> activeTimingLines[j] == old(activeTimingLines)[j]
      {
        var line := activeTimingLines[i];
        line := line.(y := line.y + delta);
        activeTimingLines := activeTimingLines[i := line];
        i := i + 1;
      }
    }

    /** Keeps the timing lines still on the field, in order, and removes the
        element of every other one. */
    method PruneLines()
      modifies this`activeTimingLines, this`removedLineEls
      ensures activeTimingLines == Kept(old(activeTimingLines), LineStays)
      ensures removedLineEls == old(removedLineEls) + Map(Dropped(old(activeTimingLines), LineStays), LineEl)
      ensures State() == LinesPruned(old(State()))
    {
      var lines := activeTimingLines;
      var kept: seq<TimingLine> := [];
      var i := 0;
      while i < |lines|
        invariant 0 <= i <= |lines|
        invariant kept == Kept(lines[..i], LineStays)
        invariant removedLineEls == old(removedLineEls) + Map(Dropped(lines[..i], LineStays), LineEl)
      {
        var line := lines[i];
        FilterStep(lines, i, LineStays, LineEl);
        if line.y > FIELD_BOTTOM || line.y < FIELD_TOP {
          removedLineEls := removedLineEls + [line.el];
        } else {
          kept := kept + [line];
        }
        i := i + 1;
      }
      assert lines[..i] == lines;
      activeTimingLines := kept;
    }
  }
}
