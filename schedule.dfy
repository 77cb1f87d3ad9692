/** The spawn schedule of the simulator: song time and the three grid cursors
    (notes every eighth of a measure, bar lines every measure, beat lines every
    quarter measure), and what one frame's catch-up loops do to them. */
module Schedule {

  const MEASURE_DURATION: real := 4.0
  const SUBDIVISION: int := 8
  /** MEASURE_DURATION / SUBDIVISION, written out (see GridConstants). */
  const SUB_INTERVAL: real := 0.5
  /** MEASURE_DURATION / 4, written out (see GridConstants). */
  const BEAT_INTERVAL: real := 1.0

  /** The note and beat steps are the measure divided as the frame loop divides it. */
  lemma GridConstants()
    ensures SUB_INTERVAL == MEASURE_DURATION / SUBDIVISION as real
    ensures BEAT_INTERVAL == MEASURE_DURATION / 4.0
    ensures SUB_INTERVAL * SUBDIVISION as real == MEASURE_DURATION
  {
  }

  /** Song time t has reached grid slot k exactly when t / interval has
      reached k: comparisons with grid times become comparisons of slot
      numbers with the quotient. */
  lemma GridCompare(k: int, interval: real, t: real)
    requires interval > 0.0
    ensures t >= k as real * interval <==> t / interval >= k as real
  {
    var q := t / interval;
    assert q * interval == t;
    assert (q - k as real) * interval == t - k as real * interval;
  }

  /** The quotient is monotone in the time. */
  lemma QuotientMonotone(t: real, t': real, interval: real)
    requires interval > 0.0 && t <= t'
    ensures t / interval <= t' / interval
  {
    assert t' / interval - t / interval == (t' - t) / interval;
  }

  /** The number of grid points j * interval, j >= 0, at or before time t. */
  function SlotsThrough(t: real, interval: real): (n: nat)
    requires interval > 0.0
    ensures t < 0.0 ==> n == 0
    ensures t >= 0.0 ==> (n - 1) as real <= t / interval < n as real
  {
    if t < 0.0 then 0
    else
      GridCompare(0, interval, t);
      (t / interval).Floor + 1
  }

  /** The cursor index after `while (t >= index * interval) index += 1`:
      the least index at or above k whose grid time lies after t. */
  function CatchUp(k: nat, interval: real, t: real): (r: nat)
    requires interval > 0.0
    ensures r >= k && r as real > t / interval
    ensures r > k <==> t / interval >= k as real
    ensures r > k ==> (r - 1) as real <= t / interval
  {
    if t / interval >= k as real then
      GridCompare(0, interval, t);
      SlotsThrough(t, interval)
    else k
  }

  /** Any index that satisfies CatchUp's characterisation is CatchUp's result. */
  lemma CatchUpUnique(k: nat, interval: real, t: real, r: nat)
    requires interval > 0.0
    requires r >= k && r as real > t / interval
    requires r == k || (r - 1) as real <= t / interval
    ensures r == CatchUp(k, interval, t)
  {
  }

  /** Once the cursor is not behind the slot count of an earlier time t,
      catching up to a later time t' lands exactly on the slot count of t':
      the spawn count does not depend on how the time was split into frames. */
  lemma CatchUpCounts(k: nat, interval: real, t: real, t': real)
    requires interval > 0.0
    requires 0.0 <= t <= t'
    requires k <= SlotsThrough(t, interval)
    ensures CatchUp(k, interval, t') == SlotsThrough(t', interval)
  {
    QuotientMonotone(t, t', interval);
    CatchUpUnique(k, interval, t', SlotsThrough(t', interval));
  }

  /** The closure state of the frame loop that drives spawning. The bar and
      beat indices name the grid slot of the next due line. */
  datatype Clock = Clock(
    songTime: real,
    nextNoteTime: real,
    nextNoteIndex: nat,
    nextBarTime: real,
    nextBarIndex: nat,
    nextBeatTime: real,
    nextBeatIndex: nat)

  /** The schedule before the first frame: the bar line of time zero has
      already been drawn, so the next bar is one measure in; beat lines start
      one quarter measure in. */
  const START: Clock := Clock(0.0, 0.0, 0, MEASURE_DURATION, 1, MEASURE_DURATION / 4.0, 1)

  /** Every cursor sits on its own grid; bar and beat cursors are past slot 0. */
  ghost predicate OnGrid(c: Clock) {
    && c.nextNoteTime == c.nextNoteIndex as real * SUB_INTERVAL
    && c.nextBarIndex >= 1 && c.nextBarTime == c.nextBarIndex as real * MEASURE_DURATION
    && c.nextBeatIndex >= 1 && c.nextBeatTime == c.nextBeatIndex as real * BEAT_INTERVAL
  }

  /** No event that is due by the current song time is left unspawned
      (the note at time zero is due only once the first frame has run). */
  ghost predicate Pending(c: Clock) {
    c.songTime <= c.nextNoteTime && c.songTime < c.nextBarTime && c.songTime < c.nextBeatTime
  }

  /** The schedule after one frame of dt seconds: song time accumulates and the
      three catch-up loops have run to completion. */
  function Advance(c: Clock, dt: real): (c': Clock)
    ensures c'.songTime == c.songTime + dt
    ensures c'.nextNoteIndex >= c.nextNoteIndex && c'.nextBarIndex >= c.nextBarIndex && c'.nextBeatIndex >= c.nextBeatIndex
    ensures c'.nextNoteTime > c'.songTime && c'.nextBarTime > c'.songTime && c'.nextBeatTime > c'.songTime
  {
    var t := c.songTime + dt;
    var k := CatchUp(c.nextNoteIndex, SUB_INTERVAL, t);
    var m := CatchUp(c.nextBarIndex, MEASURE_DURATION, t);
    var b := CatchUp(c.nextBeatIndex, BEAT_INTERVAL, t);
    GridCompare(k, SUB_INTERVAL, t);
    GridCompare(m, MEASURE_DURATION, t);
    GridCompare(b, BEAT_INTERVAL, t);
    Clock(t, k as real * SUB_INTERVAL, k, m as real * MEASURE_DURATION, m, b as real * BEAT_INTERVAL, b)
  }

  /** One cursor's catch-up, stated on its grid time: afterwards the cursor's
      time is past t, it has moved only if t had reached it, and then the slot
      before it is at or before t. */
  lemma CatchUpOnGrid(k: nat, interval: real, next: real, t: real)
    requires interval > 0.0 && next == k as real * interval
    ensures var r := CatchUp(k, interval, t);
      && r >= k && r as real * interval > t
      && (r > k <==> t >= next)
      && (r > k ==> r as real * interval - interval <= t)
  {
    var r := CatchUp(k, interval, t);
    GridCompare(k, interval, t);
    GridCompare(r, interval, t);
    GridCompare(r as int - 1, interval, t);
    assert (r as int - 1) as real * interval == r as real * interval - interval;
  }

  /** One frame keeps every cursor on its grid, leaves every cursor strictly
      after the new song time, moves a cursor only forward and only when song
      time has reached it, and never skips a due slot. */
  lemma AdvanceKeepsSchedule(c: Clock, dt: real)
    requires OnGrid(c)
    ensures var c' := Advance(c, dt);
      && OnGrid(c') && Pending(c')
      && c'.songTime == c.songTime + dt
      && c'.nextNoteTime > c'.songTime && c'.nextBarTime > c'.songTime && c'.nextBeatTime > c'.songTime
      && c.nextNoteIndex <= c'.nextNoteIndex && c.nextBarIndex <= c'.nextBarIndex && c.nextBeatIndex <= c'.nextBeatIndex
      && (c'.nextNoteIndex > c.nextNoteIndex <==> c'.songTime >= c.nextNoteTime)
      && (c'.nextBarIndex > c.nextBarIndex <==> c'.songTime >= c.nextBarTime)
      && (c'.nextBeatIndex > c.nextBeatIndex <==> c'.songTime >= c.nextBeatTime)
      && (c'.nextNoteIndex > c.nextNoteIndex ==> c'.nextNoteTime - SUB_INTERVAL <= c'.songTime)
      && (c'.nextBarIndex > c.nextBarIndex ==> c'.nextBarTime - MEASURE_DURATION <= c'.songTime)
      && (c'.nextBeatIndex > c.nextBeatIndex ==> c'.nextBeatTime - BEAT_INTERVAL <= c'.songTime)
  {
    var t := c.songTime + dt;
    CatchUpOnGrid(c.nextNoteIndex, SUB_INTERVAL, c.nextNoteTime, t);
    CatchUpOnGrid(c.nextBarIndex, MEASURE_DURATION, c.nextBarTime, t);
    CatchUpOnGrid(c.nextBeatIndex, BEAT_INTERVAL, c.nextBeatTime, t);
  }

  /** Total elapsed time of a sequence of frame deltas. */
  function Sum(dts: seq<real>): real {
    if dts == [] then 0.0 else Sum(dts[..|dts| - 1]) + dts[|dts| - 1]
  }

  /** The schedule after the frames dts, in order. */
  function Replay(c: Clock, dts: seq<real>): (r: Clock)
    ensures r.songTime == c.songTime + Sum(dts)
    ensures r.nextNoteIndex >= c.nextNoteIndex && r.nextBarIndex >= c.nextBarIndex && r.nextBeatIndex >= c.nextBeatIndex
  {
    if dts == [] then c else Advance(Replay(c, dts[..|dts| - 1]), dts[|dts| - 1])
  }

  /** For frames with non-negative deltas and total song time T: the note
      cursor has spawned floor(T / SUB_INTERVAL) + 1 notes once a frame has run,
      the bar cursor stands past floor(T / MEASURE_DURATION) + 1 bar lines
      (counting the one of time zero), and floor(T / BEAT_INTERVAL) beat lines
      have been spawned — however T was split into frames. */
  lemma {:induction false} ReplayCounts(dts: seq<real>)
    requires forall i :: 0 <= i < |dts| ==> dts[i] >= 0.0
    ensures var c := Replay(START, dts);
      && Sum(dts) >= 0.0
      && c.songTime == Sum(dts)
      && OnGrid(c)
      && c.nextNoteIndex == (if dts == [] then 0 else SlotsThrough(Sum(dts), SUB_INTERVAL))
      && c.nextBarIndex == SlotsThrough(Sum(dts), MEASURE_DURATION)
      && c.nextBeatIndex == SlotsThrough(Sum(dts), BEAT_INTERVAL)
  {
    if dts != [] {
      var init := dts[..|dts| - 1];
      var dt := dts[|dts| - 1];
      assert forall i :: 0 <= i < |init| ==> init[i] >= 0.0 by {
        forall i | 0 <= i < |init| ensures init[i] >= 0.0 {
          assert init[i] == dts[i];
        }
      }
      assert dts[..|dts| - 1] == init;
      assert Sum(dts) == Sum(init) + dt;
      assert Replay(START, dts) == Advance(Replay(START, init), dt);
      ReplayCounts(init);
      AdvanceCounts(Replay(START, init), dt);
    }
  }

  /** A frame of dt >= 0 seconds from a schedule whose cursors are not
      beyond the slot counts of its song time lands every cursor on the slot
      count of the new song time. */
  lemma AdvanceCounts(c: Clock, dt: real)
    requires c.songTime >= 0.0 && dt >= 0.0
    requires c.nextNoteIndex <= SlotsThrough(c.songTime, SUB_INTERVAL)
    requires c.nextBarIndex <= SlotsThrough(c.songTime, MEASURE_DURATION)
    requires c.nextBeatIndex <= SlotsThrough(c.songTime, BEAT_INTERVAL)
    ensures var c' := Advance(c, dt);
      && c'.songTime == c.songTime + dt
      && OnGrid(c')
      && c'.nextNoteIndex == SlotsThrough(c.songTime + dt, SUB_INTERVAL)
      && c'.nextBarIndex == SlotsThrough(c.songTime + dt, MEASURE_DURATION)
      && c'.nextBeatIndex == SlotsThrough(c.songTime + dt, BEAT_INTERVAL)
  {
    var t := c.songTime;
    CatchUpCounts(c.nextNoteIndex, SUB_INTERVAL, t, t + dt);
    CatchUpCounts(c.nextBarIndex, MEASURE_DURATION, t, t + dt);
    CatchUpCounts(c.nextBeatIndex, BEAT_INTERVAL, t, t + dt);
  }

  /** Frames totalling exactly one measure (4.0 s): nine notes (slots 0, 0.5,
      ..., 4.0 — the `>=` guard also spawns the one at 4.0), a second bar line
      at 4.0, and beat lines at 1, 2, 3 and 4. */
  lemma OneMeasureScenario()
    ensures Replay(START, [4.0]).nextNoteIndex == 9
    ensures Replay(START, [4.0]).nextBarIndex == 2
    ensures Replay(START, [4.0]).nextBeatIndex == 5
  {
    assert [4.0][..0] == [];
    assert Replay(START, [4.0]) == Advance(START, 4.0);
    assert SlotsThrough(4.0, SUB_INTERVAL) == 9;
    assert SlotsThrough(4.0, MEASURE_DURATION) == 2;
    assert SlotsThrough(4.0, BEAT_INTERVAL) == 5;
  }

  /** The same measure split into a half-second frame and a 3.5 s frame spawns
      the same nine notes: two in the first frame (slots 0 and 0.5), seven in
      the second. */
  lemma SplitMeasureScenario()
    ensures Replay(START, [0.5]).nextNoteIndex == 2
    ensures Replay(START, [0.5, 3.5]).nextNoteIndex == 9
  {
    ReplayCounts([0.5]);
    ReplayCounts([0.5, 3.5]);
    assert [0.5][..0] == [];
    assert [0.5, 3.5][..1] == [0.5];
    assert Sum([0.5]) == 0.5;
    assert Sum([0.5, 3.5]) == 4.0;
    assert SlotsThrough(0.5, SUB_INTERVAL) == 2;
    assert SlotsThrough(4.0, SUB_INTERVAL) == 9;
  }

  /** A backward frame never takes spawns back: a 5.0 s frame followed by a
      -1.0 s frame also totals 4.0 s, but keeps the eleven notes (slots 0 to
      5.0) of the first frame instead of the nine of one measure. */
  lemma BackwardFrameScenario()
    ensures Sum([5.0, -1.0]) == 4.0
    ensures Replay(START, [5.0, -1.0]).nextNoteIndex == 11
  {
    ReplayCounts([5.0]);
    assert [5.0][..0] == [];
    assert Sum([5.0]) == 5.0;
    assert SlotsThrough(5.0, SUB_INTERVAL) == 11;
    assert [5.0, -1.0][..1] == [5.0];
    var c := Replay(START, [5.0]);
    assert Replay(START, [5.0, -1.0]) == Advance(c, -1.0);
    assert 4.0 / SUB_INTERVAL < 11 as real;
    assert CatchUp(11, SUB_INTERVAL, 4.0) == 11;
  }

  /** A single stalled frame spanning three measures spawns every note, bar
      and beat line of those measures within that one frame. */
  lemma StallCatchesUp()
    ensures Advance(START, 12.0).nextNoteIndex == 25
    ensures Advance(START, 12.0).nextBarIndex == 4
    ensures Advance(START, 12.0).nextBeatIndex == 13
  {
    assert SlotsThrough(12.0, SUB_INTERVAL) == 25;
    assert SlotsThrough(12.0, MEASURE_DURATION) == 4;
    assert SlotsThrough(12.0, BEAT_INTERVAL) == 13;
  }
}
