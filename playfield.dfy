/** The playfield: lanes, the judgment line, the note and timing-line records
    and what one frame does to a single record. Positions are fractions of the
    playfield height (0 = top, 1 = bottom). */
module Playfield {

  const LANE_COUNT: int := 5
  /** Lanes of successive notes: up the five lanes and back down. */
  const NOTE_PATTERN: seq<int> := [1, 2, 3, 4, 5, 4, 3, 2]
  /** Where every note and timing line starts, just above the top edge. */
  const SPAWN_Y: real := -0.1
  /** Fraction of the playfield height travelled per second. */
  const NOTE_SPEED_PER_SEC: real := 0.4
  /** Judgment line used when the configured position is not a number. */
  const DEFAULT_JUDGE_LINE_Y: real := 0.8
  /** Entities beyond these positions are retired. */
  const FIELD_TOP: real := -0.2
  const FIELD_BOTTOM: real := 1.1

  /** What parsing the configured judgment-line percentage yields. */
  datatype ParsedFloat = NaN | Number(value: real)

  /** The judgment line: the configured percentage as a fraction, or the
      default when the configuration does not parse as a number. */
  function JudgeLineY(percent: ParsedFloat): (y: real)
    ensures percent.NaN? ==> y == DEFAULT_JUDGE_LINE_Y
    ensures percent.Number? ==> y * 100.0 == percent.value
    ensures percent.Number? && 0.0 <= percent.value <= 100.0 ==> 0.0 <= y <= 1.0
  {
    match percent
    case NaN => DEFAULT_JUDGE_LINE_Y
    case Number(p) => p / 100.0
  }

  /** Horizontal offset, in percent of the playfield width, of a lane:
      the lanes split the width into LANE_COUNT equal columns. */
  function LaneIndexToLeftPercent(laneIndex: int): (left: real)
    ensures 1 <= laneIndex <= LANE_COUNT ==> 0.0 <= left && left + 100.0 / LANE_COUNT as real <= 100.0
  {
    var laneWidth := 100.0 / LANE_COUNT as real;
    (laneIndex - 1) as real * laneWidth
  }

  /** Lane 1 is flush left and each next lane starts where the previous one
      ends, so lanes 1..5 sit at 0, 20, 40, 60 and 80 percent. */
  lemma LaneColumns(laneIndex: int)
    ensures LaneIndexToLeftPercent(1) == 0.0
    ensures LaneIndexToLeftPercent(laneIndex + 1) == LaneIndexToLeftPercent(laneIndex) + 20.0
    ensures LaneIndexToLeftPercent(5) == 80.0
  {
  }

  /** The lane of the k-th spawned note (0-based): the pattern, repeated. */
  function LaneForSlot(k: nat): (lane: int)
    ensures 1 <= lane <= LANE_COUNT
  {
    NOTE_PATTERN[k % |NOTE_PATTERN|]
  }

  /** The pattern has period eight and neighbouring notes are in adjacent lanes. */
  lemma LanePattern(k: nat)
    ensures LaneForSlot(k + 8) == LaneForSlot(k)
    ensures LaneForSlot(k + 1) == LaneForSlot(k) + 1 || LaneForSlot(k + 1) == LaneForSlot(k) - 1
  {
    assert (k + 8) % 8 == k % 8;
    assert (k + 1) % 8 == if k % 8 == 7 then 0 else k % 8 + 1;
  }

  /** A note: its element handle, position, lane and whether it has been
      hidden at the judgment line. */
  datatype Note = Note(el: nat, y: real, laneIndex: int, hidden: bool)

  datatype LineKind = Bar | Beat

  /** A bar or beat line: its element handle and position. */
  datatype TimingLine = TimingLine(el: nat, y: real, kind: LineKind)

  /** A freshly spawned note: element el, in its lane, not hidden, at the
      spawn position above the visible top edge but within the retirement
      bounds. */
  function CreateNote(laneIndex: int, el: nat): (n: Note)
    ensures n.el == el && n.laneIndex == laneIndex
    ensures n.y == SPAWN_Y && OnField(n.y)
    ensures !n.hidden
  {
    Note(el, SPAWN_Y, laneIndex, false)
  }

  /** A freshly spawned bar or beat line: element el, at the spawn position
      within the retirement bounds. */
  function CreateTimingLine(kind: LineKind, el: nat): (l: TimingLine)
    ensures l.el == el && l.kind == kind
    ensures l.y == SPAWN_Y && OnField(l.y)
  {
    TimingLine(el, SPAWN_Y, kind)
  }

  /** The notes of spawn slots from .. to-1; a note's element is its slot. */
  function NewNotes(from: nat, to: nat): seq<Note>
    requires from <= to
  {
    seq(to - from, i requires 0 <= i < to - from => CreateNote(LaneForSlot(from + i), from + i))
  }

  /** count lines of one kind whose elements are from, from+1, ... */
  function NewLines(kind: LineKind, from: nat, count: nat): seq<TimingLine> {
    seq(count, i requires 0 <= i < count => CreateTimingLine(kind, from + i))
  }

  /** Spawning one more note appends the note of the next slot. */
  lemma NewNotesSnoc(from: nat, to: nat)
    requires from <= to
    ensures NewNotes(from, to + 1) == NewNotes(from, to) + [CreateNote(LaneForSlot(to), to)]
  {
    assert NewNotes(from, to + 1)[to - from] == CreateNote(LaneForSlot(to), to);
  }

  /** Spawning one more line appends a line with the next element. */
  lemma NewLinesSnoc(kind: LineKind, from: nat, count: nat)
    ensures NewLines(kind, from, count + 1) == NewLines(kind, from, count) + [CreateTimingLine(kind, from + count)]
  {
    assert NewLines(kind, from, count + 1)[count] == CreateTimingLine(kind, from + count);
  }

  /** One frame for one note: it moves by delta, hidden or not; it becomes
      hidden once it has reached the judgment line, and stays hidden. */
  function MoveNote(n: Note, delta: real, judgeY: real): (m: Note)
    ensures m.el == n.el && m.laneIndex == n.laneIndex
    ensures m.y == n.y + delta
    ensures n.hidden ==> m.hidden
    ensures m.hidden && !n.hidden ==> m.y >= judgeY
    ensures !n.hidden && m.y >= judgeY ==> m.hidden
  {
    var y := n.y + delta;
    if !n.hidden && y >= judgeY then n.(y := y, hidden := true) else n.(y := y)
  }

  /** One frame for every note, in place. */
  function MovedNotes(s: seq<Note>, delta: real, judgeY: real): (r: seq<Note>)
    ensures |r| == |s|
    ensures forall i :: 0 <= i < |s| ==> r[i] == MoveNote(s[i], delta, judgeY)
  {
    seq(|s|, i requires 0 <= i < |s| => MoveNote(s[i], delta, judgeY))
  }

  /** One frame for one timing line: it moves by delta and nothing else changes. */
  function MoveLine(l: TimingLine, delta: real): (m: TimingLine)
    ensures m.el == l.el && m.kind == l.kind
    ensures m.y == l.y + delta
  {
    l.(y := l.y + delta)
  }

  /** One frame for every timing line, in place. */
  function MovedLines(s: seq<TimingLine>, delta: real): (r: seq<TimingLine>)
    ensures |r| == |s|
    ensures forall i :: 0 <= i < |s| ==> r[i] == MoveLine(s[i], delta)
  {
    seq(|s|, i requires 0 <= i < |s| => MoveLine(s[i], delta))
  }

  /** The retirement test of the frame loop, negated: still on the field. */
  predicate OnField(y: real): (b: bool)
    ensures b <==> FIELD_TOP <= y <= FIELD_BOTTOM
  {
    !(y > FIELD_BOTTOM || y < FIELD_TOP)
  }

  /** The note filter's test: a note stays exactly while it is within the field. */
  predicate NoteStays(n: Note): (b: bool)
    ensures b <==> FIELD_TOP <= n.y <= FIELD_BOTTOM
  {
    OnField(n.y)
  }

  /** The timing-line filter's test: a line stays exactly while it is within the field. */
  predicate LineStays(l: TimingLine): (b: bool)
    ensures b <==> FIELD_TOP <= l.y <= FIELD_BOTTOM
  {
    OnField(l.y)
  }

  function NoteEl(n: Note): nat {
    n.el
  }

  function LineEl(l: TimingLine): nat {
    l.el
  }
}
