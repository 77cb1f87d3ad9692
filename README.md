# Rhythm-game option simulator: the frame loop, verified

This project models the core of the simulator's `main.js`: the per-frame
callback `loop` and the start-up state it runs on. Each animation frame:

- moves song time forward by the elapsed seconds;
- runs three catch-up loops that spawn every note (each eighth of a measure),
  bar line (each measure) and beat line (each quarter measure) that has
  fallen due;
- moves every note and timing line by the same signed distance;
- hides each note that reaches the judgment line;
- retires every entity that left the field `[-0.2, 1.1]`, removing its
  element from its layer.

The model has two sides.

- **The page's state and loops** (`sim.dfy`). The class `Simulator.Sim`
  holds the closure variables of `main.js` as fields: `lastFrameTime`,
  `songTime`, the note, bar and beat cursors, `activeNotes` and
  `activeTimingLines`. Its methods run the code's `while`, `forEach` and
  `filter` loops step by step. `Sim.Tick` is proved to compute exactly
  `Frame.Step`, a function of the old state.
- **A reference definition of one frame** (`schedule.dfy`, `playfield.dfy`,
  `pruning.dfy`, `frame.dfy`).
  - `Schedule.Advance` gives the cursors' catch-up in closed form. A
    cursor's index `k` becomes the least index at or above `k` whose grid
    time lies after song time.
  - `Frame.Step` adds spawning, movement, hiding and pruning.
  - Lemmas about `Step` prove what the loop promises. The schedule never
    misses or repeats a slot. Every cursor ends strictly after song time.
    Survivors are exactly the on-field entries, in spawn order. Every
    created element is either still attached or was removed exactly once.
    For non-negative frames, spawn counts depend only on total song time,
    not on how it was split into frames.

DOM elements are modelled by handles: an element is its creation ordinal
within its layer (note layer, beat layer). `removeChild` appends the handle
to that layer's removal log (`removedNoteEls`, `removedLineEls`).

Two inputs come from outside the page and are parameters of the model:

- **The judgment line.** The parsed `--judgeline-position` percentage is
  passed in as a `ParsedFloat`, either `NaN` or a number.
- **Frame timestamps.** The constructor takes the start timestamp that
  `performance.now()` returns, and `Sim.Loop` takes the one that
  `requestAnimationFrame` passes.

`DIRECTION`, a constant `1` in the code, is a constructor parameter
restricted to `1` or `-1`.

The model follows the code as written, including these behaviours that are
easy to miss:

- **The spawn guard is `>=`.**
  - A first frame of 0.5 s spawns two notes, for slots 0 and 0.5 s.
  - A single 4.0 s frame, or any non-negative frames totalling 4.0 s,
    spawn nine notes, slots 0 to 4.0 s (`Schedule.OneMeasureScenario`,
    `Schedule.ReplayCounts`), not eight. Frames with a negative one among
    them can spawn more: `[5.0, -1.0]` also totals 4.0 s but spawns eleven
    notes, since the cursors never go back (`Schedule.BackwardFrameScenario`).
- **Beat lines also fire on bar boundaries.** The beat cursor steps every
  second with no exception at 4, 8, … s.
- **Spawning ignores the direction.** Every entity spawns at `SPAWN_Y`
  (-0.1) whatever the direction.
- **Hiding is one-sided.** The test is `y >= JUDGE_LINE_Y` in both
  directions.
- **Pruning is two-sided.** An entity is retired when
  `y > 1.1 || y < -0.2`, on both sides and in both directions.
- **Negative frames are allowed.** Frames may have negative length (the
  callback's timestamp can precede the previous one). The frame, its
  invariant and the fate and origin lemmas allow any `dt`. Only the
  counting lemmas (`Schedule.CatchUpCounts`, `Schedule.AdvanceCounts`,
  `Schedule.ReplayCounts`, `Frame.RunCounts`) assume non-negative frames
  and a non-negative song time.
- **One long frame spawns by kind, not by due time.** A frame that crosses
  several boundaries first spawns every due note, then every due bar line,
  then every due beat line (`Frame.SpawnedLinesShape`). A frame from 0.5 s
  to 5.5 s creates the bar line due at 4 s before the beat line due at 1 s,
  so the beat layer's handle order is not its due-time order.

## Model

| member | source | states |
|---|---|---|
| Playfield.JudgeLineY | main.js:7-12 | a percentage that is not a number gives 0.8; a number p gives y with y * 100 == p, and a percentage in [0, 100] gives a line within the field [0, 1] |
| Playfield.LaneIndexToLeftPercent | main.js:50-54 | lanes 1..5 start at a non-negative offset and their 20 % column ends within the width |
| Playfield.LaneColumns | main.js:50-54 | lane 1 is flush left, each next lane starts 20 % further on, and lane 5 starts at 80 % |
| Playfield.LaneForSlot | main.js:134 | the pattern lookup for any slot gives a lane in 1..5 |
| Playfield.LanePattern | main.js:27 | the lane pattern has period 8, and successive notes are in adjacent lanes |
| Playfield.CreateNote | main.js:57-77 | a new note carries the given lane and element, is not hidden, and starts at SPAWN_Y (-0.1), inside the retirement bounds |
| Playfield.CreateTimingLine | main.js:80-90 | a new timing line carries the given kind and element and starts at SPAWN_Y, inside the retirement bounds |
| Playfield.NewNotesSnoc | main.js:133-141 | spawning one more note appends the note of the next slot, with that slot's lane and handle |
| Playfield.NewLinesSnoc | main.js:144-154 | spawning one more timing line appends a line of that kind with the next handle |
| Playfield.MoveNote | main.js:157-166 | a note moves by delta whether hidden or not, and keeps its element and lane; hidden never reverts; a note becomes hidden only at or past the judgment line, and an unhidden note at or past it becomes hidden |
| Playfield.MovedNotes | main.js:157-166 | every note, in place and in order, is moved as MoveNote says |
| Playfield.MoveLine | main.js:178-181 | a timing line moves by delta and keeps its element and kind |
| Playfield.MovedLines | main.js:178-181 | every timing line, in place and in order, is moved as MoveLine says |
| Playfield.OnField | main.js:170 | a position escapes the removal test (above 1.1 or below -0.2) exactly when it lies in [-0.2, 1.1] |
| Playfield.NoteStays | main.js:169-175 | the note filter keeps a note exactly while its y lies in [-0.2, 1.1] |
| Playfield.LineStays | main.js:184-190 | the timing-line filter keeps a line exactly while its y lies in [-0.2, 1.1] |
| Pruning.Kept | main.js:169-175 | the filter's survivors are no more than its input, and each one passes the test and comes from the input |
| Pruning.Dropped | main.js:169-175 | the entries the filter removes are no more than its input, and each one fails the test and comes from the input |
| Pruning.KeptMember | main.js:169-175 | an entry survives the filter exactly when it was present and passes the test, and is dropped exactly when it was present and fails it |
| Pruning.KeptConcat | main.js:184-190 | filtering a concatenation filters each part, keeping their order: survivors keep their relative order |
| Pruning.KeptPartition | main.js:169-175 | kept and dropped entries together are as many as the input and are the original entries, counted with multiplicity: nothing is lost or duplicated |
| Pruning.KeptLength | main.js:169-175 | kept and dropped entries together are exactly as many as the input |
| Pruning.KeptMultiset | main.js:169-175 | kept and dropped entries seen through any map are, with multiplicity, the input seen through it |
| Pruning.KeptSnoc | main.js:169-175 | checking one more entry appends it to the survivors when it passes the test and to the removed entries otherwise, leaving the other part as it was |
| Pruning.FilterStep | main.js:169-175 | one pass of the pruning loop: a passing entry extends the survivors and leaves the removed handles alone; a failing one extends the removed handles by its element and leaves the survivors alone |
| Pruning.KeptAll | main.js:184-190 | when every entry passes the test, the filter changes nothing and removes nothing |
| Pruning.KeptIncreasing | main.js:169-175 | filtering keeps entries in increasing handle order |
| Schedule.GridConstants | main.js:22-24 | the note step is the measure divided by the subdivision (0.5 s), and the beat step, defined at main.js line 150, is the measure divided by 4 (1.0 s) |
| Schedule.GridCompare | main.js:133 | song time has reached slot k of a grid exactly when time / interval has reached k |
| Schedule.SlotsThrough | main.js:133-141 | the number of grid points at or before t: 0 when t < 0, otherwise n with n - 1 <= t / interval < n |
| Schedule.CatchUp | main.js:133-154 | the cursor index after a catch-up loop: never below the old index, past t, moved only if t had reached the old index, and then with the slot before it at or before t |
| Schedule.CatchUpUnique | main.js:133-154 | any index with CatchUp's characterisation is CatchUp's result, so a loop that stops there computes it |
| Schedule.CatchUpCounts | main.js:133-154 | a cursor not ahead of the slot count of an earlier time lands exactly on the slot count of a later time |
| Schedule.Advance | main.js:128-154 | one frame's schedule: song time grows by dt, no cursor goes back, and every next note, bar and beat time ends after the new song time |
| Schedule.Replay | main.js:192-195 | the schedule after a sequence of frames: song time grows by their total, and no cursor goes back |
| Schedule.AdvanceKeepsSchedule | main.js:128-154 | one frame keeps every cursor on its grid and leaves every cursor strictly after the new song time; cursors only move forward, only when song time has reached them, and never skip a due slot |
| Schedule.AdvanceCounts | main.js:128-154 | a non-negative frame from counted cursors lands every cursor on the slot count of the new song time |
| Schedule.ReplayCounts | main.js:106-154 | after non-negative frames totalling T, there have been no notes if no frame has run and floor(T / 0.5) + 1 notes once at least one has, floor(T / 4) + 1 bar lines with the one at time zero, and floor(T / 1) beat lines, however T was split into frames |
| Schedule.OneMeasureScenario | main.js:106-154 | one 4.0 s frame spawns nine notes, a second bar line and four beat lines |
| Schedule.SplitMeasureScenario | main.js:106-154 | the same measure as a 0.5 s frame and a 3.5 s frame spawns two notes, then seven more |
| Schedule.BackwardFrameScenario | main.js:128-141 | the frames 5.0 s then -1.0 s total 4.0 s yet leave eleven notes spawned, not nine: a backward frame takes no spawn back |
| Schedule.StallCatchesUp | main.js:133-154 | one stalled 12 s frame spawns all 25 notes, 3 further bar lines and 12 beat lines of three measures |
| Frame.Delta | main.js:130 | the distance travelled in a frame is +0.4 * dt for direction 1 and -0.4 * dt for direction -1 |
| Frame.Step | main.js:125-190 | one whole frame: its schedule is Advance; the removal logs only grow by appending; the line count never falls; on each layer, active plus newly removed entities number as many as were active before plus those spawned (which entity went where is Frame.StepAccounting and Frame.NoteFate) |
| Frame.StepAccounting | main.js:125-190 | for any frame, on each layer the removed and active element handles after it are, with multiplicity, those before it plus exactly the handles created during it: each element is attached or removed exactly once |
| Frame.StepNoteAccounting | main.js:133-175 | the note-layer half of StepAccounting: removed plus active note handles grow by exactly the slots spawned in the frame |
| Frame.StepLineAccounting | main.js:143-190 | the beat-layer half of StepAccounting: removed plus active line handles grow by exactly the handles of the bar and beat lines created in the frame |
| Frame.LineLayerAccounting | main.js:143-190 | appending lines with consecutive handles, moving and pruning add exactly those handles to the removed-or-active elements of the beat layer |
| Frame.LayerMultiset | main.js:169-190 | after appending spawned entities, moving and pruning, the removed and active handles are those removed and active before plus those of the spawned entities, with multiplicity |
| Frame.Run | main.js:192-195 | any sequence of frames: its schedule is the schedule alone replayed (entities never affect spawning), and the removal logs only grow |
| Frame.InitialValid | main.js:97-119 | the start-up state, with the bar line of time zero already drawn, satisfies the frame invariant |
| Frame.FrameSeconds | main.js:126 | the frame length in seconds is the timestamp difference over 1000, and it is non-negative exactly when the clock did not go back |
| Frame.SpawnedFrom | main.js:128-154 | a state built cursor by cursor and layer by layer by the three catch-up loops is the spawning phase of the frame |
| Frame.StepInPhases | main.js:125-190 | the frame is its phases run in the code's order: spawn, move notes, prune notes, move lines, prune lines |
| Frame.ElsBelow | main.js:133-154 | every handle accounted for in a layer is below the layer's creation count |
| Frame.LayerAccounting | main.js:169-190 | appending new elements, moving and pruning keep every element of a layer either attached or removed, exactly once |
| Frame.LayerOrder | main.js:169-190 | appending new elements, moving and pruning keep a layer's active entries in creation order |
| Frame.NewNoteEls | main.js:133-141 | the notes spawned in a frame carry the next note-layer handles |
| Frame.BarBeatEls | main.js:143-154 | bar lines then beat lines spawned in a row carry the next beat-layer handles |
| Frame.SpawnedLineEls | main.js:143-154 | the lines spawned in a frame carry the next beat-layer handles |
| Frame.NoteLayerStep | main.js:133-175 | a frame keeps the note layer valid: lanes follow the pattern, survivors are on the field and in spawn order, and every note element is accounted for once |
| Frame.SurvivorLanes | main.js:133-175 | surviving notes keep their slot's lane and are on the field |
| Frame.LineLayerStep | main.js:143-190 | a frame keeps the beat layer valid: survivors are on the field and in spawn order, and every element is accounted for once |
| Frame.StepNotesValid | main.js:128-175 | the note-layer invariant holds after a frame |
| Frame.StepLinesValid | main.js:143-190 | the beat-layer invariant holds after a frame |
| Frame.StepKeepsValid | main.js:125-190 | every frame of any length keeps the invariant: all three next times lie after song time, and all survivors lie in [-0.2, 1.1] |
| Frame.NoteLayerFate | main.js:157-175 | a note of a layer, once moved, survives exactly when it is on the field, and otherwise its element is removed |
| Frame.NoteFate | main.js:133-175 | a note active before a frame, or due in it, moves by the frame's delta; it survives exactly when on the field, and otherwise its element is removed |
| Frame.NoteLayerOrigin | main.js:133-175 | a surviving note is an earlier note moved, or the new note of a slot due in the frame, moved |
| Frame.NoteOrigin | main.js:133-175 | every note after a frame was active before it, or is the note of a slot that fell due in it, moved by delta |
| Frame.SpawnedLinesShape | main.js:143-154 | a frame spawns first one bar line per bar boundary reached, then one beat line per beat boundary, at the spawn position with consecutive handles |
| Frame.LineLayerFate | main.js:178-190 | a timing line of a layer, once moved, survives exactly when it is on the field, and otherwise its element is removed |
| Frame.LineFate | main.js:143-190 | a timing line active before a frame, or spawned in it, moves by delta; it survives exactly when on the field, and otherwise its element is removed |
| Frame.LineOrigin | main.js:143-190 | every timing line after a frame was active before it or spawned in it, moved by delta |
| Frame.RunValid | main.js:106-195 | any sequence of frames from start-up keeps the invariant, and its schedule is the schedule alone replayed over those frames |
| Frame.RunCounts | main.js:106-190 | after at least one frame, all non-negative, totalling T, the state is valid, so each created element is attached or removed exactly once; floor(T / 0.5) + 1 notes were created, and active plus removed notes number that many; one beat-layer element exists per bar and beat line created, and active plus removed lines number that many |
| Simulator.Sim.constructor | main.js:97-119 | the judgment line comes from the configuration and the clock starts at now; the state is the start-up state with a bar line already drawn and the bar cursor one measure on, and it is valid |
| Simulator.Sim.Loop | main.js:125-128 | the callback at timestamp now advances by the elapsed seconds, keeps the state valid and leaves every cursor after song time |
| Simulator.Sim.Tick | main.js:128-190 | the frame's loops compute exactly the reference frame Frame.Step |
| Simulator.Sim.Spawn | main.js:128-154 | advancing song time and the three catch-up loops compute the spawning phase of the frame |
| Simulator.Sim.SpawnNotes | main.js:133-141 | the note loop stops at CatchUp of the old cursor and appends the notes of exactly the slots passed, in order, with their pattern lanes |
| Simulator.Sim.SpawnBars | main.js:144-147 | the bar loop stops at CatchUp of the old cursor and appends one bar line per boundary passed, with consecutive handles |
| Simulator.Sim.SpawnBeats | main.js:150-154 | the beat loop stops at CatchUp of the old cursor and appends one beat line per boundary passed, with consecutive handles |
| Simulator.Sim.UpdateNotes | main.js:157-166 | the note-update loop moves and hides every note as MoveNote says, in place |
| Simulator.Sim.PruneNotes | main.js:169-175 | the note filter keeps the on-field notes in order and removes every other note's element, in order |
| Simulator.Sim.UpdateLines | main.js:178-181 | the line-update loop moves every timing line as MoveLine says, in place |
| Simulator.Sim.PruneLines | main.js:184-190 | the line filter keeps the on-field lines in order and removes every other line's element, in order |

## Left out

- **Styling.** Note colours, CSS classes and `style.left`, `style.top` and
  `style.display` are rendering only and do not feed back into the state.
  The `hidden` flag models the hiding, and `y` models the position.
- **Reading the configuration.** `getComputedStyle` and `parseFloat` are
  I/O. Their outcome is the `ParsedFloat` parameter.
- **Infinite values.** A `parseFloat` result of ±Infinity is not modelled.
- **The clock.** `performance.now()` and `requestAnimationFrame` are
  outside the model. Their timestamps are parameters of the constructor and
  `Sim.Loop`, and the endless rescheduling is `Frame.Run` over a sequence
  of frames.
- **Floating point.** Arithmetic is on exact reals. The grid steps 0.5, 4.0
  and 1.0 are exact in binary. Rounding of accumulated song time and
  positions is not modelled.
- **Logging.** `console.log` and `console.error` are output only.
- **The missing-layer exit.** When a layer element is missing, the set-up
  returns early before any state exists, so there is nothing to model.
- **Mutation through shared references.** Note and timing-line objects are
  mutated in place through references in the code. The model holds them as
  values in sequences that the loops reassign. No other code holds those
  references.
- **Rest of the program.** `eslint.config.mjs` is linter configuration and
  is not part of this model.
