/** One animation frame of the simulator as a function on its whole state:
    the schedule, the active notes and timing lines, and the element handles
    the frame has detached from their layers. */
module Frame {
  import opened Schedule
  import opened Playfield
  import opened Pruning

  /** The simulator's state. Element handles are creation ordinals within
      their layer; removedNoteEls and removedLineEls list, in order, every
      element the frame loop has removed from the note and beat layers. */
  datatype World = World(
    clock: Clock,
    notes: seq<Note>,
    lines: seq<TimingLine>,
    linesCreated: nat,
    removedNoteEls: seq<nat>,
    removedLineEls: seq<nat>)

  /** from, from+1, ..., to-1 */
  function Range(from: nat, to: nat): (r: seq<nat>)
    requires from <= to
    ensures |r| == to - from
    ensures forall i :: 0 <= i < |r| ==> r[i] == from + i
  {
    seq(to - from, i requires 0 <= i < to - from => from + i)
  }

  lemma RangeConcat(a: nat, b: nat, c: nat)
    requires a <= b <= c
    ensures Range(a, b) + Range(b, c) == Range(a, c)
  {
  }

  /** Before the first frame: the schedule's start and the bar line of time
      zero, element 0 of the beat layer. */
  const INITIAL: World := World(START, [], [CreateTimingLine(Bar, 0)], 1, [], [])

  /** The note layer between frames: the k-th spawned note has element k
      and lane NOTE_PATTERN[k mod 8], every active note is on the field, the
      active notes are in spawn order, and each of the created notes is
      either active or was removed, exactly once. */
  ghost predicate NoteLayerValid(notes: seq<Note>, removed: seq<nat>, created: nat) {
    && (forall n :: n in notes ==> n.laneIndex == LaneForSlot(n.el) && OnField(n.y))
    && Increasing(notes, NoteEl)
    && multiset(removed + Map(notes, NoteEl)) == multiset(Range(0, created))
  }

  /** The beat layer between frames: every active line is on the field, in
      spawn order, and each of the created lines is either active or was
      removed, exactly once. */
  ghost predicate LineLayerValid(lines: seq<TimingLine>, removed: seq<nat>, created: nat) {
    && (forall l :: l in lines ==> OnField(l.y))
    && Increasing(lines, LineEl)
    && multiset(removed + Map(lines, LineEl)) == multiset(Range(0, created))
  }

  /** What holds between frames: the schedule cursors are on their grids and
      nothing due is unspawned, the beat layer has had one element per bar and
      beat line spawned, and both layers are valid. */
  ghost predicate Valid(w: World) {
    && OnGrid(w.clock) && Pending(w.clock)
    && w.linesCreated == w.clock.nextBarIndex + w.clock.nextBeatIndex - 1
    && NoteLayerValid(w.notes, w.removedNoteEls, w.clock.nextNoteIndex)
    && LineLayerValid(w.lines, w.removedLineEls, w.linesCreated)
  }

  lemma InitialValid()
    ensures Valid(INITIAL)
  {
    assert Map(INITIAL.lines, LineEl) == [0];
    assert Range(0, 1) == [0];
  }

  /** The length in seconds of the frame between two timestamps in
      milliseconds; negative when the clock reads earlier than before. */
  function FrameSeconds(last: real, now: real): (dt: real)
    ensures dt * 1000.0 == now - last
    ensures now >= last <==> dt >= 0.0
  {
    (now - last) / 1000.0
  }

  /** The signed distance every entity travels in a frame of dt seconds. */
  function Delta(dt: real, direction: int): (d: real)
    ensures direction == 1 ==> d == NOTE_SPEED_PER_SEC * dt
    ensures direction == -1 ==> d == -(NOTE_SPEED_PER_SEC * dt)
  {
    direction as real * NOTE_SPEED_PER_SEC * dt
  }

  /** The notes after the frame's spawning and movement, before pruning. */
  function SpawnedMovedNotes(w: World, dt: real, direction: int, judgeY: real): seq<Note> {
    var c := Advance(w.clock, dt);
    MovedNotes(w.notes + NewNotes(w.clock.nextNoteIndex, c.nextNoteIndex), Delta(dt, direction), judgeY)
  }

  /** The timing lines spawned in the frame: bar lines first, then beat lines. */
  function SpawnedLines(w: World, dt: real): seq<TimingLine> {
    var c := Advance(w.clock, dt);
    var bars := c.nextBarIndex - w.clock.nextBarIndex;
    var beats := c.nextBeatIndex - w.clock.nextBeatIndex;
    NewLines(Bar, w.linesCreated, bars) + NewLines(Beat, w.linesCreated + bars, beats)
  }

  /** The timing lines after the frame's spawning and movement, before pruning. */
  function SpawnedMovedLines(w: World, dt: real, direction: int): seq<TimingLine> {
    MovedLines(w.lines + SpawnedLines(w, dt), Delta(dt, direction))
  }

  /** One frame of dt seconds: advance the schedule, spawn what fell due, move
      everything by the same delta, hide notes at the judgment line, and retire
      whatever left the field, removing its element. */
  function Step(w: World, dt: real, direction: int, judgeY: real): (w': World)
    ensures w'.clock == Advance(w.clock, dt)
    ensures w.removedNoteEls <= w'.removedNoteEls && w.removedLineEls <= w'.removedLineEls
    ensures w'.linesCreated >= w.linesCreated
    ensures |w'.notes| + |w'.removedNoteEls|
         == |w.notes| + |w.removedNoteEls| + (w'.clock.nextNoteIndex - w.clock.nextNoteIndex)
    ensures |w'.lines| + |w'.removedLineEls| == |w.lines| + |w.removedLineEls| + (w'.linesCreated - w.linesCreated)
  {
    var c := Advance(w.clock, dt);
    var notes := SpawnedMovedNotes(w, dt, direction, judgeY);
    var lines := SpawnedMovedLines(w, dt, direction);
    KeptPartition(notes, NoteStays, NoteEl);
    KeptPartition(lines, LineStays, LineEl);
    World(c,
      Kept(notes, NoteStays),
      Kept(lines, LineStays),
      w.linesCreated + |SpawnedLines(w, dt)|,
      w.removedNoteEls + Map(Dropped(notes, NoteStays), NoteEl),
      w.removedLineEls + Map(Dropped(lines, LineStays), LineEl))
  }

  /** The phases of a frame, in the order the frame loop runs them. First
      song time advances and the due notes, bar lines and beat lines are
      spawned. */
  function Spawned(w: World, dt: real): World {
    var c := Advance(w.clock, dt);
    w.(clock := c,
       notes := w.notes + NewNotes(w.clock.nextNoteIndex, c.nextNoteIndex),
       lines := w.lines + SpawnedLines(w, dt),
       linesCreated := w.linesCreated + |SpawnedLines(w, dt)|)
  }

  /** A state that the three catch-up loops have produced from w, cursor by
      cursor and layer by layer, is the spawning phase of the frame. */
  lemma SpawnedFrom(w: World, dt: real, w': World)
    requires w'.clock.songTime == w.clock.songTime + dt
    requires w'.clock.nextNoteIndex == CatchUp(w.clock.nextNoteIndex, SUB_INTERVAL, w'.clock.songTime)
    requires w'.clock.nextNoteTime == w'.clock.nextNoteIndex as real * SUB_INTERVAL
    requires w'.clock.nextBarIndex == CatchUp(w.clock.nextBarIndex, MEASURE_DURATION, w'.clock.songTime)
    requires w'.clock.nextBarTime == w'.clock.nextBarIndex as real * MEASURE_DURATION
    requires w'.clock.nextBeatIndex == CatchUp(w.clock.nextBeatIndex, BEAT_INTERVAL, w'.clock.songTime)
    requires w'.clock.nextBeatTime == w'.clock.nextBeatIndex as real * BEAT_INTERVAL
    requires w'.notes == w.notes + NewNotes(w.clock.nextNoteIndex, w'.clock.nextNoteIndex)
    requires w'.lines == w.lines
      + NewLines(Bar, w.linesCreated, w'.clock.nextBarIndex - w.clock.nextBarIndex)
      + NewLines(Beat, w.linesCreated + (w'.clock.nextBarIndex - w.clock.nextBarIndex),
                 w'.clock.nextBeatIndex - w.clock.nextBeatIndex)
    requires w'.linesCreated == w.linesCreated + (w'.clock.nextBarIndex - w.clock.nextBarIndex)
      + (w'.clock.nextBeatIndex - w.clock.nextBeatIndex)
    requires w'.removedNoteEls == w.removedNoteEls && w'.removedLineEls == w.removedLineEls
    ensures w' == Spawned(w, dt)
  {
    assert w'.clock == Advance(w.clock, dt);
  }

  /** Then every note moves and the ones at the judgment line are hidden. */
  function NotesMoved(w: World, delta: real, judgeY: real): World {
    w.(notes := MovedNotes(w.notes, delta, judgeY))
  }

  /** Then the notes off the field are retired. */
  function NotesPruned(w: World): World {
    w.(notes := Kept(w.notes, NoteStays), removedNoteEls := w.removedNoteEls + Map(Dropped(w.notes, NoteStays), NoteEl))
  }

  /** Then every timing line moves. */
  function LinesMoved(w: World, delta: real): World {
    w.(lines := MovedLines(w.lines, delta))
  }

  /** Finally the timing lines off the field are retired. */
  function LinesPruned(w: World): World {
    w.(lines := Kept(w.lines, LineStays), removedLineEls := w.removedLineEls + Map(Dropped(w.lines, LineStays), LineEl))
  }

  /** Running the phases in the frame loop's order is the frame. */
  lemma StepInPhases(w: World, dt: real, direction: int, judgeY: real)
    ensures Step(w, dt, direction, judgeY)
         == LinesPruned(LinesMoved(NotesPruned(NotesMoved(Spawned(w, dt), Delta(dt, direction), judgeY)), Delta(dt, direction)))
  {
  }

  /** The state after the frames dts, in order. */
  function Run(w: World, dts: seq<real>, direction: int, judgeY: real): (r: World)
    ensures r.clock == Replay(w.clock, dts)
    ensures w.removedNoteEls <= r.removedNoteEls && w.removedLineEls <= r.removedLineEls
  {
    if dts == [] then w else Step(Run(w, dts[..|dts| - 1], direction, judgeY), dts[|dts| - 1], direction, judgeY)
  }

  /** Every element handle accounted for in a layer is below the layer's count. */
  lemma ElsBelow<T>(removed: seq<nat>, active: seq<T>, el: T -> nat, created: nat)
    requires multiset(removed + Map(active, el)) == multiset(Range(0, created))
    ensures forall i :: 0 <= i < |active| ==> el(active[i]) < created
  {
    forall i | 0 <= i < |active| ensures el(active[i]) < created {
      assert Map(active, el)[i] == el(active[i]);
      assert el(active[i]) in removed + Map(active, el);
      assert el(active[i]) in multiset(Range(0, created));
    }
  }

  /** The layer bookkeeping a frame preserves, for notes and timing lines
      alike: appending freshly created elements, moving without changing
      handles and pruning keep every element accounted for exactly once. */
  lemma LayerAccounting<T>(removed: seq<nat>, active: seq<T>, spawned: seq<T>, moved: seq<T>,
                           keep: T -> bool, el: T -> nat, created: nat, created': nat)
    requires created <= created'
    requires multiset(removed + Map(active, el)) == multiset(Range(0, created))
    requires Map(spawned, el) == Range(created, created')
    requires Map(moved, el) == Map(active + spawned, el)
    ensures multiset((removed + Map(Dropped(moved, keep), el)) + Map(Kept(moved, keep), el)) == multiset(Range(0, created'))
  {
    MapConcat(active, spawned, el);
    KeptPartition(moved, keep, el);
    RangeConcat(0, created, created');
    calc {
      multiset((removed + Map(Dropped(moved, keep), el)) + Map(Kept(moved, keep), el));
      multiset(removed) + multiset(Map(Dropped(moved, keep), el)) + multiset(Map(Kept(moved, keep), el));
      multiset(removed) + multiset(Map(moved, el));
      multiset(removed) + multiset(Map(active, el)) + multiset(Range(created, created'));
      multiset(Range(0, created)) + multiset(Range(created, created'));
      multiset(Range(0, created'));
    }
  }

  /** Moving without changing handles and pruning neither lose nor duplicate
      an element: the removal log and the survivors' handles together are the
      handles before the frame plus those of the spawned entries. */
  lemma LayerMultiset<T>(removed: seq<nat>, active: seq<T>, spawned: seq<T>, moved: seq<T>,
                         keep: T -> bool, el: T -> nat)
    requires Map(moved, el) == Map(active + spawned, el)
    ensures multiset((removed + Map(Dropped(moved, keep), el)) + Map(Kept(moved, keep), el))
         == multiset(removed + Map(active, el)) + multiset(Map(spawned, el))
  {
    MapConcat(active, spawned, el);
    KeptPartition(moved, keep, el);
    calc {
      multiset((removed + Map(Dropped(moved, keep), el)) + Map(Kept(moved, keep), el));
      multiset(removed) + multiset(Map(Dropped(moved, keep), el)) + multiset(Map(Kept(moved, keep), el));
      multiset(removed) + multiset(Map(moved, el));
      multiset(removed) + multiset(Map(active, el)) + multiset(Map(spawned, el));
    }
  }

  /** Appending freshly created elements, moving without changing handles
      and pruning keep the active entries in creation order. */
  lemma LayerOrder<T>(removed: seq<nat>, active: seq<T>, spawned: seq<T>, moved: seq<T>,
                      keep: T -> bool, el: T -> nat, created: nat, created': nat)
    requires created <= created'
    requires multiset(removed + Map(active, el)) == multiset(Range(0, created))
    requires Increasing(active, el)
    requires Map(spawned, el) == Range(created, created')
    requires Map(moved, el) == Map(active + spawned, el)
    ensures Increasing(Kept(moved, keep), el)
  {
    ElsBelow(removed, active, el, created);
    MapConcat(active, spawned, el);
    var all := Map(active + spawned, el);
    assert forall i :: 0 <= i < |active| ==> all[i] == el(active[i]) < created;
    assert forall i :: |active| <= i < |all| ==> all[i] == created + (i - |active|);
    assert Increasing(moved, el) by {
      forall i, j | 0 <= i < j < |moved| ensures el(moved[i]) < el(moved[j]) {
        assert el(moved[i]) == Map(moved, el)[i] == all[i];
        assert el(moved[j]) == Map(moved, el)[j] == all[j];
        if j < |active| {
          assert el(active[i]) < el(active[j]);
        }
      }
    }
    KeptIncreasing(moved, keep, el);
  }

  /** Handles of the spawned notes are the next note slots. */
  lemma NewNoteEls(from: nat, to: nat)
    requires from <= to
    ensures Map(NewNotes(from, to), NoteEl) == Range(from, to)
  {
    var s := NewNotes(from, to);
    forall i | 0 <= i < |s| ensures Map(s, NoteEl)[i] == Range(from, to)[i] {
      assert s[i] == CreateNote(LaneForSlot(from + i), from + i);
      assert NoteEl(s[i]) == from + i;
    }
  }

  /** Handles of bar lines followed by beat lines, created in a row, are the
      next beat-layer ordinals. */
  lemma BarBeatEls(from: nat, bars: nat, beats: nat)
    ensures Map(NewLines(Bar, from, bars) + NewLines(Beat, from + bars, beats), LineEl) == Range(from, from + bars + beats)
  {
    var barLines := NewLines(Bar, from, bars);
    var beatLines := NewLines(Beat, from + bars, beats);
    forall i | 0 <= i < bars ensures Map(barLines, LineEl)[i] == Range(from, from + bars)[i] {
      assert barLines[i] == CreateTimingLine(Bar, from + i);
    }
    forall i | 0 <= i < beats ensures Map(beatLines, LineEl)[i] == Range(from + bars, from + bars + beats)[i] {
      assert beatLines[i] == CreateTimingLine(Beat, from + bars + i);
    }
    MapConcat(barLines, beatLines, LineEl);
    RangeConcat(from, from + bars, from + bars + beats);
  }

  /** Handles of the spawned lines are the next beat-layer ordinals. */
  lemma SpawnedLineEls(w: World, dt: real)
    ensures Map(SpawnedLines(w, dt), LineEl) == Range(w.linesCreated, w.linesCreated + |SpawnedLines(w, dt)|)
  {
    var c := Advance(w.clock, dt);
    BarBeatEls(w.linesCreated, c.nextBarIndex - w.clock.nextBarIndex, c.nextBeatIndex - w.clock.nextBeatIndex);
  }

  /** Every frame, valid state or not, accounts for each element exactly
      once: on each layer, the elements removed so far plus those still
      attached are, with multiplicity, the ones before the frame plus the
      ones it created, which carry the next handles. */
  lemma StepAccounting(w: World, dt: real, direction: int, judgeY: real)
    ensures var w' := Step(w, dt, direction, judgeY);
      && multiset(w'.removedNoteEls + Map(w'.notes, NoteEl))
         == multiset(w.removedNoteEls + Map(w.notes, NoteEl)) + multiset(Range(w.clock.nextNoteIndex, w'.clock.nextNoteIndex))
      && multiset(w'.removedLineEls + Map(w'.lines, LineEl))
         == multiset(w.removedLineEls + Map(w.lines, LineEl)) + multiset(Range(w.linesCreated, w'.linesCreated))
  {
    StepNoteAccounting(w, dt, direction, judgeY);
    StepLineAccounting(w, dt, direction, judgeY);
  }

  /** The note layer part of StepAccounting. */
  lemma StepNoteAccounting(w: World, dt: real, direction: int, judgeY: real)
    ensures var w' := Step(w, dt, direction, judgeY);
      multiset(w'.removedNoteEls + Map(w'.notes, NoteEl))
      == multiset(w.removedNoteEls + Map(w.notes, NoteEl)) + multiset(Range(w.clock.nextNoteIndex, w'.clock.nextNoteIndex))
  {
    var c := Advance(w.clock, dt);
    var spawned := NewNotes(w.clock.nextNoteIndex, c.nextNoteIndex);
    var moved := SpawnedMovedNotes(w, dt, direction, judgeY);
    assert Map(moved, NoteEl) == Map(w.notes + spawned, NoteEl);
    NewNoteEls(w.clock.nextNoteIndex, c.nextNoteIndex);
    LayerMultiset(w.removedNoteEls, w.notes, spawned, moved, NoteStays, NoteEl);
  }

  /** The beat layer part of StepAccounting. */
  lemma StepLineAccounting(w: World, dt: real, direction: int, judgeY: real)
    ensures var w' := Step(w, dt, direction, judgeY);
      multiset(w'.removedLineEls + Map(w'.lines, LineEl))
      == multiset(w.removedLineEls + Map(w.lines, LineEl)) + multiset(Range(w.linesCreated, w'.linesCreated))
  {
    var w' := Step(w, dt, direction, judgeY);
    SpawnedLineEls(w, dt);
    LineLayerAccounting(w.lines, w.removedLineEls, w.linesCreated, SpawnedLines(w, dt), Delta(dt, direction),
                        w'.lines, w'.removedLineEls, w'.linesCreated);
  }

  /** The beat layer's accounting on one layer: the lines spawned, moved and
      pruned, with their handles the next ordinals. */
  lemma LineLayerAccounting(lines: seq<TimingLine>, removed: seq<nat>, created: nat, spawned: seq<TimingLine>,
                            delta: real, lines': seq<TimingLine>, removed': seq<nat>, created': nat)
    requires Map(spawned, LineEl) == Range(created, created + |spawned|)
    requires lines' == Kept(MovedLines(lines + spawned, delta), LineStays)
    requires removed' == removed + Map(Dropped(MovedLines(lines + spawned, delta), LineStays), LineEl)
    requires created' == created + |spawned|
    ensures multiset(removed' + Map(lines', LineEl))
         == multiset(removed + Map(lines, LineEl)) + multiset(Range(created, created'))
  {
    var moved := MovedLines(lines + spawned, delta);
    assert Map(moved, LineEl) == Map(lines + spawned, LineEl);
    LayerMultiset(removed, lines, spawned, moved, LineStays, LineEl);
  }

  /** One frame keeps the note layer valid: the notes of slots from..to-1 are
      spawned, everything moves by delta and the off-field notes are retired
      with their elements removed. */
  lemma NoteLayerStep(notes: seq<Note>, removed: seq<nat>, from: nat, to: nat, delta: real, judgeY: real)
    requires from <= to
    requires NoteLayerValid(notes, removed, from)
    ensures var moved := MovedNotes(notes + NewNotes(from, to), delta, judgeY);
      NoteLayerValid(Kept(moved, NoteStays), removed + Map(Dropped(moved, NoteStays), NoteEl), to)
  {
    var spawned := NewNotes(from, to);
    var all := notes + spawned;
    var moved := MovedNotes(all, delta, judgeY);
    assert Map(moved, NoteEl) == Map(all, NoteEl);
    NewNoteEls(from, to);
    LayerAccounting(removed, notes, spawned, moved, NoteStays, NoteEl, from, to);
    LayerOrder(removed, notes, spawned, moved, NoteStays, NoteEl, from, to);
    SurvivorLanes(notes, from, to, delta, judgeY);
  }

  /** Survivors keep the lane of their spawn slot and are on the field. */
  lemma SurvivorLanes(notes: seq<Note>, from: nat, to: nat, delta: real, judgeY: real)
    requires from <= to
    requires forall n :: n in notes ==> n.laneIndex == LaneForSlot(n.el)
    ensures var moved := MovedNotes(notes + NewNotes(from, to), delta, judgeY);
      forall n :: n in Kept(moved, NoteStays) ==> n.laneIndex == LaneForSlot(n.el) && OnField(n.y)
  {
    var spawned := NewNotes(from, to);
    var all := notes + spawned;
    var moved := MovedNotes(all, delta, judgeY);
    forall n | n in Kept(moved, NoteStays) ensures n.laneIndex == LaneForSlot(n.el) && OnField(n.y) {
      KeptMember(moved, NoteStays, n);
      var i :| 0 <= i < |moved| && moved[i] == n;
      assert n == MoveNote(all[i], delta, judgeY);
      if i < |notes| {
        assert all[i] in notes;
      } else {
        var j := i - |notes|;
        assert all[i] == spawned[j] == CreateNote(LaneForSlot(from + j), from + j);
      }
    }
  }

  /** One frame keeps the beat layer valid: the spawned lines are appended,
      everything moves by delta and the off-field lines are retired with their
      elements removed. */
  lemma LineLayerStep(lines: seq<TimingLine>, removed: seq<nat>, created: nat, spawned: seq<TimingLine>, delta: real,
                      lines': seq<TimingLine>, removed': seq<nat>, created': nat)
    requires LineLayerValid(lines, removed, created)
    requires Map(spawned, LineEl) == Range(created, created + |spawned|)
    requires lines' == Kept(MovedLines(lines + spawned, delta), LineStays)
    requires removed' == removed + Map(Dropped(MovedLines(lines + spawned, delta), LineStays), LineEl)
    requires created' == created + |spawned|
    ensures LineLayerValid(lines', removed', created')
  {
    var moved := MovedLines(lines + spawned, delta);
    assert Map(moved, LineEl) == Map(lines + spawned, LineEl);
    LayerAccounting(removed, lines, spawned, moved, LineStays, LineEl, created, created');
    LayerOrder(removed, lines, spawned, moved, LineStays, LineEl, created, created');
    forall l | l in lines' ensures OnField(l.y) {
      KeptMember(moved, LineStays, l);
    }
  }

  /** The note layer part of a frame, stated on the frame's result. */
  lemma StepNotesValid(w: World, dt: real, direction: int, judgeY: real)
    requires OnGrid(w.clock)
    requires NoteLayerValid(w.notes, w.removedNoteEls, w.clock.nextNoteIndex)
    ensures var w' := Step(w, dt, direction, judgeY);
      NoteLayerValid(w'.notes, w'.removedNoteEls, w'.clock.nextNoteIndex)
  {
    var c := Advance(w.clock, dt);
    AdvanceKeepsSchedule(w.clock, dt);
    NoteLayerStep(w.notes, w.removedNoteEls, w.clock.nextNoteIndex, c.nextNoteIndex, Delta(dt, direction), judgeY);
  }

  /** The beat layer part of a frame, stated on the frame's result. */
  lemma StepLinesValid(w: World, dt: real, direction: int, judgeY: real)
    requires OnGrid(w.clock)
    requires LineLayerValid(w.lines, w.removedLineEls, w.linesCreated)
    ensures var w' := Step(w, dt, direction, judgeY);
      LineLayerValid(w'.lines, w'.removedLineEls, w'.linesCreated)
  {
    var w' := Step(w, dt, direction, judgeY);
    SpawnedLineEls(w, dt);
    LineLayerStep(w.lines, w.removedLineEls, w.linesCreated, SpawnedLines(w, dt), Delta(dt, direction),
                  w'.lines, w'.removedLineEls, w'.linesCreated);
  }

  /** Every frame, however long or short (even with a negative delta), leaves
      the state valid: each cursor is past the new song time, every surviving
      note and line lies within [-0.2, 1.1], lanes follow the pattern, and
      every element is accounted for exactly once. */
  lemma StepKeepsValid(w: World, dt: real, direction: int, judgeY: real)
    requires Valid(w)
    ensures var w' := Step(w, dt, direction, judgeY);
      && Valid(w')
      && w'.clock.nextNoteTime > w'.clock.songTime
      && w'.clock.nextBarTime > w'.clock.songTime
      && w'.clock.nextBeatTime > w'.clock.songTime
      && (forall n :: n in w'.notes ==> FIELD_TOP <= n.y <= FIELD_BOTTOM)
      && (forall l :: l in w'.lines ==> FIELD_TOP <= l.y <= FIELD_BOTTOM)
  {
    var c := Advance(w.clock, dt);
    AdvanceKeepsSchedule(w.clock, dt);
    StepNotesValid(w, dt, direction, judgeY);
    StepLinesValid(w, dt, direction, judgeY);
    var w' := Step(w, dt, direction, judgeY);
    assert w'.clock == c;
    assert |SpawnedLines(w, dt)| == (c.nextBarIndex - w.clock.nextBarIndex) + (c.nextBeatIndex - w.clock.nextBeatIndex);
    forall n | n in w'.notes ensures FIELD_TOP <= n.y <= FIELD_BOTTOM {
      assert OnField(n.y);
    }
    forall l | l in w'.lines ensures FIELD_TOP <= l.y <= FIELD_BOTTOM {
      assert OnField(l.y);
    }
  }

  /** What one frame's movement and pruning do to one note of a layer. */
  lemma NoteLayerFate(all: seq<Note>, delta: real, judgeY: real, n: Note)
    requires n in all
    ensures var moved := MovedNotes(all, delta, judgeY);
      var m := MoveNote(n, delta, judgeY);
      && (m in Kept(moved, NoteStays) <==> OnField(m.y))
      && (!OnField(m.y) ==> n.el in Map(Dropped(moved, NoteStays), NoteEl))
  {
    var moved := MovedNotes(all, delta, judgeY);
    var m := MoveNote(n, delta, judgeY);
    var i :| 0 <= i < |all| && all[i] == n;
    assert moved[i] == m;
    KeptMember(moved, NoteStays, m);
    if !OnField(m.y) {
      var d := Dropped(moved, NoteStays);
      var j :| 0 <= j < |d| && d[j] == m;
      assert Map(d, NoteEl)[j] == n.el;
    }
  }

  /** What a frame does to one note that is active or falls due in it: the
      note moves by the frame's delta (hidden notes too; hiding follows
      MoveNote), it survives exactly when it is still on the field, and
      otherwise its element is removed from the note layer. */
  lemma NoteFate(w: World, dt: real, direction: int, judgeY: real, n: Note)
    requires || n in w.notes
             || (w.clock.nextNoteIndex <= n.el < Advance(w.clock, dt).nextNoteIndex
                 && n == CreateNote(LaneForSlot(n.el), n.el))
    ensures var w' := Step(w, dt, direction, judgeY);
      var m := MoveNote(n, Delta(dt, direction), judgeY);
      && (m in w'.notes <==> OnField(m.y))
      && (!OnField(m.y) ==> n.el in w'.removedNoteEls)
  {
    var from := w.clock.nextNoteIndex;
    var spawned := NewNotes(from, Advance(w.clock, dt).nextNoteIndex);
    if n !in w.notes {
      assert spawned[n.el - from] == n;
    }
    NoteLayerFate(w.notes + spawned, Delta(dt, direction), judgeY, n);
  }

  /** Where a surviving note comes from, on one layer: an element below from
      is an earlier active note, moved; one in from..to-1 is the note of that
      slot, freshly created and moved. */
  lemma NoteLayerOrigin(notes: seq<Note>, removed: seq<nat>, from: nat, to: nat, delta: real, judgeY: real, m: Note)
    requires from <= to
    requires multiset(removed + Map(notes, NoteEl)) == multiset(Range(0, from))
    requires m in Kept(MovedNotes(notes + NewNotes(from, to), delta, judgeY), NoteStays)
    ensures || (m.el < from && exists n :: n in notes && m == MoveNote(n, delta, judgeY))
            || (from <= m.el < to && m == MoveNote(CreateNote(LaneForSlot(m.el), m.el), delta, judgeY))
  {
    var spawned := NewNotes(from, to);
    var all := notes + spawned;
    var moved := MovedNotes(all, delta, judgeY);
    KeptMember(moved, NoteStays, m);
    var i :| 0 <= i < |moved| && moved[i] == m;
    assert m == MoveNote(all[i], delta, judgeY);
    if i < |notes| {
      ElsBelow(removed, notes, NoteEl, from);
      assert NoteEl(notes[i]) < from;
      assert notes[i] in notes;
    } else {
      var j := i - |notes|;
      assert all[i] == spawned[j] == CreateNote(LaneForSlot(from + j), from + j);
    }
  }

  /** Where a note active after a frame comes from: an earlier element is a
      note that was active before, moved by the frame's delta; a newer one is
      the freshly created note of a slot that fell due in the frame, moved. */
  lemma NoteOrigin(w: World, dt: real, direction: int, judgeY: real, m: Note)
    requires Valid(w)
    requires m in Step(w, dt, direction, judgeY).notes
    ensures var c' := Advance(w.clock, dt);
      var delta := Delta(dt, direction);
      || (m.el < w.clock.nextNoteIndex && exists n :: n in w.notes && m == MoveNote(n, delta, judgeY))
      || (w.clock.nextNoteIndex <= m.el < c'.nextNoteIndex
          && m == MoveNote(CreateNote(LaneForSlot(m.el), m.el), delta, judgeY))
  {
    NoteLayerOrigin(w.notes, w.removedNoteEls, w.clock.nextNoteIndex, Advance(w.clock, dt).nextNoteIndex,
                    Delta(dt, direction), judgeY, m);
  }

  /** The timing lines a frame spawns: first one bar line per bar boundary
      reached, then one beat line per beat boundary reached, with the next
      handles of the beat layer, all at the spawn position. */
  lemma SpawnedLinesShape(w: World, dt: real)
    ensures var c' := Advance(w.clock, dt);
      var bars := c'.nextBarIndex - w.clock.nextBarIndex;
      var sp := SpawnedLines(w, dt);
      && |sp| == bars + (c'.nextBeatIndex - w.clock.nextBeatIndex)
      && (forall i :: 0 <= i < bars ==> sp[i] == CreateTimingLine(Bar, w.linesCreated + i))
      && (forall i :: bars <= i < |sp| ==> sp[i] == CreateTimingLine(Beat, w.linesCreated + i))
  {
    var c' := Advance(w.clock, dt);
    var bars := c'.nextBarIndex - w.clock.nextBarIndex;
    var beats := c'.nextBeatIndex - w.clock.nextBeatIndex;
    var barLines := NewLines(Bar, w.linesCreated, bars);
    var beatLines := NewLines(Beat, w.linesCreated + bars, beats);
    var sp := SpawnedLines(w, dt);
    forall i | bars <= i < |sp| ensures sp[i] == CreateTimingLine(Beat, w.linesCreated + i) {
      assert sp[i] == beatLines[i - bars];
    }
  }

  /** What one frame's movement and pruning do to one timing line of a layer. */
  lemma LineLayerFate(all: seq<TimingLine>, delta: real, l: TimingLine)
    requires l in all
    ensures var moved := MovedLines(all, delta);
      var m := MoveLine(l, delta);
      && (m in Kept(moved, LineStays) <==> OnField(m.y))
      && (!OnField(m.y) ==> l.el in Map(Dropped(moved, LineStays), LineEl))
  {
    var moved := MovedLines(all, delta);
    var m := MoveLine(l, delta);
    var i :| 0 <= i < |all| && all[i] == l;
    assert moved[i] == m;
    KeptMember(moved, LineStays, m);
    if !OnField(m.y) {
      var d := Dropped(moved, LineStays);
      var j :| 0 <= j < |d| && d[j] == m;
      assert Map(d, LineEl)[j] == l.el;
    }
  }

  /** What a frame does to one timing line that is active or spawned in it:
      it moves by the frame's delta, survives exactly when it is still on the
      field, and otherwise its element is removed from the beat layer. */
  lemma LineFate(w: World, dt: real, direction: int, judgeY: real, l: TimingLine)
    requires l in w.lines + SpawnedLines(w, dt)
    ensures var w' := Step(w, dt, direction, judgeY);
      var m := MoveLine(l, Delta(dt, direction));
      && (m in w'.lines <==> OnField(m.y))
      && (!OnField(m.y) ==> l.el in w'.removedLineEls)
  {
    LineLayerFate(w.lines + SpawnedLines(w, dt), Delta(dt, direction), l);
  }

  /** Where a timing line active after a frame comes from: a line active
      before or spawned in the frame, moved by the frame's delta. */
  lemma LineOrigin(w: World, dt: real, direction: int, judgeY: real, m: TimingLine)
    requires m in Step(w, dt, direction, judgeY).lines
    ensures exists l :: l in w.lines + SpawnedLines(w, dt) && m == MoveLine(l, Delta(dt, direction))
  {
    var all := w.lines + SpawnedLines(w, dt);
    var moved := SpawnedMovedLines(w, dt, direction);
    KeptMember(moved, LineStays, m);
    var i :| 0 <= i < |moved| && moved[i] == m;
    assert all[i] in all;
  }

  /** Any sequence of frames from the initial state keeps the state valid,
      and its schedule is the schedule alone replayed over the same frames. */
  lemma {:induction false} RunValid(dts: seq<real>, direction: int, judgeY: real)
    ensures Valid(Run(INITIAL, dts, direction, judgeY))
    ensures Run(INITIAL, dts, direction, judgeY).clock == Replay(START, dts)
  {
    if dts == [] {
      InitialValid();
    } else {
      var init := dts[..|dts| - 1];
      RunValid(init, direction, judgeY);
      StepKeepsValid(Run(INITIAL, init, direction, judgeY), dts[|dts| - 1], direction, judgeY);
    }
  }

  /** After frames with non-negative deltas and total song time T (at least
      one frame): floor(T / SUB_INTERVAL) + 1 notes have been created, each
      either still active or removed once; the beat layer has had the bar line
      of time zero, floor(T / MEASURE_DURATION) more bar lines and
      floor(T / BEAT_INTERVAL) beat lines — however T was split into frames. */
  lemma RunCounts(dts: seq<real>, direction: int, judgeY: real)
    requires dts != []
    requires forall i :: 0 <= i < |dts| ==> dts[i] >= 0.0
    ensures var w := Run(INITIAL, dts, direction, judgeY);
      && Valid(w)
      && w.clock.nextNoteIndex == SlotsThrough(Sum(dts), SUB_INTERVAL)
      && |w.removedNoteEls| + |w.notes| == SlotsThrough(Sum(dts), SUB_INTERVAL)
      && w.linesCreated == SlotsThrough(Sum(dts), MEASURE_DURATION) + SlotsThrough(Sum(dts), BEAT_INTERVAL) - 1
      && |w.removedLineEls| + |w.lines| == w.linesCreated
  {
    var w := Run(INITIAL, dts, direction, judgeY);
    RunValid(dts, direction, judgeY);
    ReplayCounts(dts);
    assert |multiset(w.removedNoteEls + Map(w.notes, NoteEl))| == |Range(0, w.clock.nextNoteIndex)|;
    assert |multiset(w.removedLineEls + Map(w.lines, LineEl))| == |Range(0, w.linesCreated)|;
  }
}
