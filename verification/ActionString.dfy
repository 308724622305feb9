/** The companion's camera schedule: a mood cell repeated as often as it fits, then a hold for the rest. */
module ActionString {
  import opened Text

  datatype Personality = Playful | Romantic | Bratty | Dominant | Soft | Mysterious | Unlisted(name: string)

  /** A motion held for a number of frames, written `<keys>-<frames>`. */
  datatype Move = Move(keys: string, frames: nat)

  /** The motion cell of a mood; a personality without one moves like the playful one. */
  function MotionCell(p: Personality): seq<Move> {
    match p
    case Romantic => [Move("none", 10), Move("i", 4), Move("none", 10), Move("k", 4)]
    case Bratty => [Move("j", 4), Move("none", 1), Move("l", 4), Move("none", 1), Move("j", 3), Move("none", 3)]
    case Dominant => [Move("none", 35), Move("w", 6), Move("none", 35)]
    case Soft => [Move("none", 15), Move("i", 2), Move("none", 15), Move("k", 2)]
    case Mysterious => [Move("l", 15), Move("none", 5)]
    case _ => [Move("w", 3), Move("none", 2), Move("d", 3), Move("none", 2), Move("i", 2), Move("none", 2),
               Move("k", 2), Move("none", 2), Move("a", 3), Move("none", 2)]
  }

  function SegmentText(m: Move): string { m.keys + "-" + Decimal(m.frames) }

  function Texts(moves: seq<Move>): (ts: seq<string>)
    ensures |ts| == |moves| && forall i | 0 <= i < |moves| :: ts[i] == SegmentText(moves[i])
  {
    if moves == [] then [] else Texts(moves[..|moves| - 1]) + [SegmentText(moves[|moves| - 1])]
  }

  // ---------- split and join ----------

  /** `parts.join(sep)`. */
  function JoinWith(parts: seq<string>, sep: char): string {
    if parts == [] then "" else if |parts| == 1 then parts[0] else parts[0] + [sep] + JoinWith(parts[1..], sep)
  }

  /** `s.split(sep)`: one more piece than there are separators. */
  function Split(s: string, sep: char): (parts: seq<string>)
    ensures parts != []
  {
    if s == "" then [""]
    else
      var rest := Split(s[1..], sep);
      if s[0] == sep then [""] + rest else [[s[0]] + rest[0]] + rest[1..]
  }

  lemma {:induction false} SplitOne(part: string, sep: char)
    requires sep !in part
    ensures Split(part, sep) == [part]
  {
    if part != "" {
      SplitOne(part[1..], sep);
      assert part == [part[0]] + part[1..];
    }
  }

  lemma {:induction false} SplitFirst(part: string, rest: string, sep: char)
    requires sep !in part
    ensures Split(part + [sep] + rest, sep) == [part] + Split(rest, sep)
  {
    var s := part + [sep] + rest;
    if part == "" {
      assert s[1..] == rest;
    } else {
      SplitFirst(part[1..], rest, sep);
      assert s[1..] == part[1..] + [sep] + rest;
      assert part == [part[0]] + part[1..];
    }
  }

  /** Splitting undoes joining when no part contains the separator. */
  lemma {:induction false} SplitJoin(parts: seq<string>, sep: char)
    requires parts != [] && forall i | 0 <= i < |parts| :: sep !in parts[i]
    ensures Split(JoinWith(parts, sep), sep) == parts
  {
    if |parts| == 1 {
      SplitOne(parts[0], sep);
    } else {
      SplitJoin(parts[1..], sep);
      SplitFirst(parts[0], JoinWith(parts[1..], sep), sep);
    }
  }

  // ---------- reading a segment ----------

  /** `Number(seg.split('-').pop())`: the frames a segment is held for, when that is a number. */
  function FramesOf(segment: string): Option<nat> {
    var parts := Split(segment, '-');
    var last := parts[|parts| - 1];
    if AllDigits(last) then Some(Value(last)) else None
  }

  /** `<keys>-<frames>`. */
  function ReadSegment(segment: string): Option<Move> {
    var parts := Split(segment, '-');
    if |parts| == 2 && parts[1] != "" && AllDigits(parts[1]) then Some(Move(parts[0], Value(parts[1]))) else None
  }

  function ReadSegments(segments: seq<string>): Option<seq<Move>> {
    if segments == [] then Some([])
    else
      var front, last := ReadSegments(segments[..|segments| - 1]), ReadSegment(segments[|segments| - 1]);
      if front.Some? && last.Some? then Some(front.value + [last.value]) else None
  }

  /** Comma-separated segments applied in order; the empty string has none. */
  function Parse(s: string): Option<seq<Move>> { if s == "" then Some([]) else ReadSegments(Split(s, ',')) }

  /** Motions that take time and whose keys cannot be mistaken for punctuation. */
  predicate Playable(moves: seq<Move>) {
    forall i | 0 <= i < |moves| :: moves[i].frames > 0 && '-' !in moves[i].keys && ',' !in moves[i].keys
  }

  lemma {:induction false} DigitsAvoid(n: nat)
    ensures '-' !in Decimal(n) && ',' !in Decimal(n) && Decimal(n) != ""
  {
    DecimalRoundTrip(n);
  }

  lemma {:induction false} ReadsBack(m: Move)
    requires '-' !in m.keys
    ensures ReadSegment(SegmentText(m)) == Some(m) && FramesOf(SegmentText(m)) == Some(m.frames)
  {
    DecimalRoundTrip(m.frames);
    DigitsAvoid(m.frames);
    SplitFirst(m.keys, Decimal(m.frames), '-');
    SplitOne(Decimal(m.frames), '-');
  }

  lemma {:induction false} TextsReadBack(moves: seq<Move>)
    requires Playable(moves)
    ensures ReadSegments(Texts(moves)) == Some(moves)
  {
    if moves != [] {
      var n := |moves| - 1;
      assert Texts(moves)[..n] == Texts(moves[..n]);
      TextsReadBack(moves[..n]);
      ReadsBack(moves[n]);
      assert moves == moves[..n] + [moves[n]];
    }
  }

  lemma {:induction false} JoinNotEmpty(parts: seq<string>, sep: char)
    requires parts != [] && parts[0] != ""
    ensures JoinWith(parts, sep) != ""
  {
  }

  /** Round trip: parsing the joined segments gives the motions back, in order. */
  lemma {:induction false} ParseInvertsJoin(moves: seq<Move>)
    requires Playable(moves)
    ensures Parse(JoinWith(Texts(moves), ',')) == Some(moves)
  {
    if moves != [] {
      var ts := Texts(moves);
      forall i | 0 <= i < |ts| ensures ',' !in ts[i] {
        DigitsAvoid(moves[i].frames);
      }
      SplitJoin(ts, ',');
      TextsReadBack(moves);
      JoinNotEmpty(ts, ',');
    }
  }

  // ---------- the schedule ----------

  function Frames(moves: seq<Move>): nat {
    if moves == [] then 0 else Frames(moves[..|moves| - 1]) + moves[|moves| - 1].frames
  }

  lemma {:induction false} FramesMore(a: seq<Move>, b: seq<Move>)
    ensures Frames(a + b) == Frames(a) + Frames(b)
  {
    if b == [] {
      assert a + b == a;
    } else {
      FramesMore(a, b[..|b| - 1]);
      assert (a + b)[..|a + b| - 1] == a + b[..|b| - 1];
    }
  }

  function Repeated(cell: seq<Move>, times: nat): seq<Move> {
    if times == 0 then [] else Repeated(cell, times - 1) + cell
  }

  lemma {:induction false} RepeatedPlayable(cell: seq<Move>, times: nat)
    requires Playable(cell)
    ensures Playable(Repeated(cell, times))
  {
    if times > 0 {
      RepeatedPlayable(cell, times - 1);
    }
  }

  function Padding(frames: int): seq<Move> { if frames > 0 then [Move("none", frames)] else [] }

  /** Every mood has a playable cell, and it takes some time. */
  lemma {:induction false} CellsArePlayable(p: Personality)
    ensures Playable(MotionCell(p)) && Frames(MotionCell(p)) > 0
  {
    var cell := MotionCell(p);
    assert cell[|cell| - 1].frames > 0;
  }

  /** `cell.reduce(...)`: the frames of a cell, read off its segments. */
  method CellFrames(cell: seq<Move>) returns (frames: nat)
    requires Playable(cell)
    ensures frames == Frames(cell)
  {
    frames := 0;
    for i := 0 to |cell|
      invariant frames == Frames(cell[..i])
    {
      ReadsBack(cell[i]);
      frames := frames + FramesOf(SegmentText(cell[i])).value;
      TakeNext(cell, i);
      assert cell[..i + 1][..i] == cell[..i];
    }
    TakeAll(cell, |cell|);
  }

  /** A schedule made of a cell: whole cells, then a hold shorter than one, for exactly the frames asked for. */
  ghost predicate Fits(moves: seq<Move>, cell: seq<Move>, totalFrames: int) {
    && Playable(moves) && Frames(moves) == (if totalFrames > 0 then totalFrames else 0)
    && exists times: nat, rest: nat | rest < Frames(cell) :: moves == Repeated(cell, times) + Padding(rest)
  }

  lemma {:induction false} PaddedCellsFit(cell: seq<Move>, times: nat, rest: nat, totalFrames: int)
    requires Playable(cell) && rest < Frames(cell)
    requires Frames(Repeated(cell, times)) + rest == if totalFrames > 0 then totalFrames else 0
    ensures Fits(Repeated(cell, times) + Padding(rest), cell, totalFrames)
  {
    RepeatedPlayable(cell, times);
    FramesMore(Repeated(cell, times), Padding(rest));
    if rest > 0 {
      PaddingText(rest);
    }
  }

  /** The segments of a cell, as many whole times as they fit, then the remainder. */
  method Fill(cell: seq<Move>, totalFrames: int) returns (segments: seq<string>)
    requires Playable(cell) && Frames(cell) > 0
    ensures exists moves :: segments == Texts(moves) && Fits(moves, cell, totalFrames)
  {
    var cellFrames := CellFrames(cell);
    segments := [];
    var used := 0;
    ghost var times := 0;
    while cellFrames > 0 && used + cellFrames <= totalFrames
      invariant 0 <= used && (used == 0 || used <= totalFrames)
      invariant used == Frames(Repeated(cell, times)) && segments == Texts(Repeated(cell, times))
      decreases totalFrames - used
    {
      TextsMore(Repeated(cell, times), cell);
      FramesMore(Repeated(cell, times), cell);
      segments := segments + Texts(cell);
      used := used + cellFrames;
      times := times + 1;
    }
    var remainder := totalFrames - used;
    ghost var rest: nat := if remainder > 0 then remainder else 0;
    TextsMore(Repeated(cell, times), Padding(rest));
    if remainder > 0 {
      PaddingText(remainder);
      segments := segments + ["none-" + Decimal(remainder)];
    }
    PaddedCellsFit(cell, times, rest, totalFrames);
  }

  /**
   `buildActionString`. Whatever the mood and the number of frames asked for, the string parses back to whole cells and
   a trailing hold shorter than a cell; every duration is positive, and they add up to exactly the frames asked for
   (a negative number asks for none).
   */
  method BuildActionString(p: Personality, totalFrames: int) returns (s: string)
    ensures Parse(s).Some? && Fits(Parse(s).value, MotionCell(p), totalFrames)
  {
    CellsArePlayable(p);
    var segments := Fill(MotionCell(p), totalFrames);
    ghost var moves :| segments == Texts(moves) && Fits(moves, MotionCell(p), totalFrames);
    ParseInvertsJoin(moves);
    s := JoinWith(segments, ',');
  }

  lemma {:induction false} PaddingText(frames: nat)
    requires frames > 0
    ensures Texts(Padding(frames)) == ["none-" + Decimal(frames)] && Frames(Padding(frames)) == frames
        && Playable(Padding(frames))
  {
    var m := Move("none", frames);
    assert [m][..0] == [];
    assert SegmentText(m) == "none-" + Decimal(frames);
  }

  lemma {:induction false} TextsMore(a: seq<Move>, b: seq<Move>)
    ensures Texts(a + b) == Texts(a) + Texts(b)
  {
    var x, y := Texts(a + b), Texts(a) + Texts(b);
    assert |x| == |y| && forall i | 0 <= i < |x| :: x[i] == y[i];
  }
}
