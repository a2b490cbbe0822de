/**
 * The note-list builders of `midi_utils.py`: the MIDI event list made from
 * detected notes, the staff layout of the sheet-music preview, and the
 * mapping of a drawn canvas to MIDI notes.
 *
 * The libraries these lists are handed to (pretty_midi's file writer and
 * synthesiser, matplotlib's drawing and PNG encoding) are not modelled: a
 * `PrettyMidi` value is the object that would be written, a `StaffLayout`
 * the points and limits that would be drawn.
 */
module MidiUtils {
  import opened Wrappers
  import opened AudioProcessing

  /** Velocity of every MIDI note the module creates. */
  const Velocity: int := 100
  /** General MIDI program 0, acoustic grand piano. */
  const Piano: int := 0

  datatype MidiNote = MidiNote(velocity: int, pitch: int, start: real, end: real)
  datatype Instrument = Instrument(program: int, notes: seq<MidiNote>)
  datatype PrettyMidi = PrettyMidi(instruments: seq<Instrument>)

  /** `pretty_midi.note_name_to_number`; `None` where it raises. */
  type NoteNumber = string -> Option<int>

  // ---------------------------------------------------------------------------
  // MIDI from detected notes

  /** A note that goes into the MIDI file: it has a name and a positive frequency. */
  predicate Playable(n: Note) {
    n.noteName != [] && n.frequency > 0.0
  }

  /** The playable notes, in input order. */
  function PlayableNotes(notes: seq<Note>): seq<Note>
    decreases |notes|
  {
    if notes == [] then []
    else PlayableNotes(notes[..|notes| - 1]) + (if Playable(notes[|notes| - 1]) then [notes[|notes| - 1]] else [])
  }

  /** Keeping the playable notes distributes over concatenation, so input order is kept. */
  lemma {:induction false} PlayableNotesAppend(a: seq<Note>, b: seq<Note>)
    ensures PlayableNotes(a + b) == PlayableNotes(a) + PlayableNotes(b)
    decreases |b|
  {
    if b == [] {
      assert a + b == a;
    } else {
      var last := b[|b| - 1];
      assert (a + b)[..|a + b| - 1] == a + b[..|b| - 1];
      PlayableNotesAppend(a, b[..|b| - 1]);
      var keep := if Playable(last) then [last] else [];
      assert PlayableNotes(a + b) == PlayableNotes(a) + PlayableNotes(b[..|b| - 1]) + keep;
    }
  }

  /** Exactly the playable input notes are kept. */
  lemma {:induction false} PlayableNotesMembers(notes: seq<Note>)
    ensures forall n :: n in PlayableNotes(notes) <==> n in notes && Playable(n)
    decreases |notes|
  {
    if notes != [] {
      PlayableNotesMembers(notes[..|notes| - 1]);
      assert notes == notes[..|notes| - 1] + [notes[|notes| - 1]];
    }
  }

  /** The MIDI note for `n` at `pitch`: velocity 100, start and end copied from the note. */
  function MidiNoteOf(n: Note, pitch: int): MidiNote {
    MidiNote(Velocity, pitch, n.startTime, n.endTime)
  }

  /**
   * `create_midi_from_notes`: `None` (the source's `False`) exactly when some
   * playable note has a name the converter rejects; otherwise one piano
   * instrument holding one MIDI note per playable note, in input order.
   */
  method CreateMidiFromNotes(notes: seq<Note>, noteNumber: NoteNumber) returns (r: Option<PrettyMidi>)
    ensures r.Some? <==> forall n :: n in notes && Playable(n) ==> noteNumber(n.noteName).Some?
    ensures r.Some? ==> |r.value.instruments| == 1 && r.value.instruments[0].program == Piano
    ensures r.Some? ==>
      var events, played := r.value.instruments[0].notes, PlayableNotes(notes);
      && |events| == |played|
      && forall k :: 0 <= k < |played| ==>
           noteNumber(played[k].noteName).Some? && events[k] == MidiNoteOf(played[k], noteNumber(played[k].noteName).value)
  {
    PlayableNotesMembers(notes);
    var events: seq<MidiNote> := [];
    for i := 0 to |notes|
      invariant forall n :: n in notes[..i] && Playable(n) ==> noteNumber(n.noteName).Some?
      invariant |events| == |PlayableNotes(notes[..i])|
      invariant forall k :: 0 <= k < |events| ==>
        var n := PlayableNotes(notes[..i])[k];
        noteNumber(n.noteName).Some? && events[k] == MidiNoteOf(n, noteNumber(n.noteName).value)
    {
      var note := notes[i];
      assert notes[..i + 1] == notes[..i] + [note];
      PlayableNotesAppend(notes[..i], [note]);
      assert PlayableNotes([note]) == PlayableNotes([]) + (if Playable(note) then [note] else []);
      if note.noteName != [] && note.frequency > 0.0 {
        var number := noteNumber(note.noteName);
        if number.None? {
          return None;
        }
        events := events + [MidiNoteOf(note, number.value)];
      }
    }
    assert notes[..|notes|] == notes;
    r := Some(PrettyMidi([Instrument(Piano, events)]));
  }

  // ---------------------------------------------------------------------------
  // Staff layout of the sheet-music preview

  /** Staff height of each natural letter; the accidental and the octave are ignored. */
  const NotePositions: map<char, real> := map['C' := 0.0, 'D' := 0.5, 'E' := 1.0, 'F' := 1.5, 'G' := 2.0, 'A' := 2.5, 'B' := 3.0]
  /** Heights of the five staff lines. */
  const StaffLines: seq<real> := [0.0, 1.0, 2.0, 3.0, 4.0]
  /** The label is drawn this far above its point. */
  const LabelOffset: real := 0.3

  /** A plotted note: its column, its height, and the label drawn above it. */
  datatype Mark = Mark(x: int, y: real, text: string)

  /** What the preview draws: staff lines, note marks and the axis limits. */
  datatype StaffLayout = StaffLayout(lines: seq<real>, marks: seq<Mark>, xLimits: (real, real), yLimits: (real, real))

  /** A note is drawn when it has a name whose first letter has a staff position. */
  predicate Plotted(n: Note) {
    n.noteName != [] && n.noteName[0] in NotePositions
  }

  function MarkOf(x: int, n: Note): Mark
    requires Plotted(n)
  {
    Mark(x, NotePositions[n.noteName[0]], n.noteName)
  }

  /** The marks of the notes in column order: note `i` goes in column `i`. */
  function Marks(notes: seq<Note>): seq<Mark>
    decreases |notes|
  {
    if notes == [] then []
    else
      var last := notes[|notes| - 1];
      Marks(notes[..|notes| - 1]) + (if Plotted(last) then [MarkOf(|notes| - 1, last)] else [])
  }

  /**
   * The note-placement loop of `create_sheet_music_from_notes`, with the
   * staff lines and axis limits it sets.
   */
  method CreateSheetMusicFromNotes(notes: seq<Note>) returns (layout: StaffLayout)
    ensures layout.marks == Marks(notes)
    ensures layout.lines == StaffLines
    ensures layout.xLimits == (-0.5, |notes| as real + 0.5) && layout.yLimits == (-0.5, 4.5)
  {
    var marks: seq<Mark> := [];
    var xPos := 0;
    for i := 0 to |notes|
      invariant xPos == i
      invariant marks == Marks(notes[..i])
    {
      var note := notes[i];
      assert notes[..i + 1][..i] == notes[..i];
      if note.noteName != [] {
        var noteBase := note.noteName[0];
        if noteBase in NotePositions {
          marks := marks + [Mark(xPos, NotePositions[noteBase], note.noteName)];
        }
      }
      xPos := xPos + 1;
    }
    assert notes[..|notes|] == notes;
    layout := StaffLayout(StaffLines, marks, (-0.5, |notes| as real + 0.5), (-0.5, 4.5));
  }

  /**
   * The marks are exactly the plotted notes, each in the column of its
   * index among all notes (skipped notes still take a column) and at the
   * height of its first letter.
   */
  lemma {:induction false} MarksExact(notes: seq<Note>)
    ensures forall m :: m in Marks(notes) <==>
      exists i :: 0 <= i < |notes| && Plotted(notes[i]) && m == MarkOf(i, notes[i])
    decreases |notes|
  {
    if notes != [] {
      var k := |notes| - 1;
      var prefix := notes[..k];
      MarksExact(prefix);
      forall m | m in Marks(notes)
        ensures exists i :: 0 <= i < |notes| && Plotted(notes[i]) && m == MarkOf(i, notes[i])
      {
        if m in Marks(prefix) {
          var i :| 0 <= i < |prefix| && Plotted(prefix[i]) && m == MarkOf(i, prefix[i]);
          assert notes[i] == prefix[i];
        } else {
          assert Plotted(notes[k]) && m == MarkOf(k, notes[k]);
        }
      }
      forall i | 0 <= i < |notes| && Plotted(notes[i])
        ensures MarkOf(i, notes[i]) in Marks(notes)
      {
        if i < k {
          assert prefix[i] == notes[i];
        }
      }
    }
  }

  /** Columns strictly increase along the marks, so marks follow input order. */
  lemma {:induction false} MarksOrdered(notes: seq<Note>)
    ensures forall a, b :: 0 <= a < b < |Marks(notes)| ==> Marks(notes)[a].x < Marks(notes)[b].x
    ensures forall m :: m in Marks(notes) ==> 0 <= m.x < |notes|
    decreases |notes|
  {
    if notes != [] {
      MarksOrdered(notes[..|notes| - 1]);
    }
  }

  /** The staff heights of the seven letters lie between the bottom line and the fourth. */
  lemma NotePositionsOnStaff()
    ensures forall c :: c in NotePositions ==> 0.0 <= NotePositions[c] <= 3.0
  {
  }

  /** Every mark and its label lie inside the axis limits the preview sets. */
  lemma {:induction false} MarksInsideLimits(notes: seq<Note>)
    ensures forall m :: m in Marks(notes) ==>
      && -0.5 <= m.x as real <= |notes| as real + 0.5
      && -0.5 <= m.y && m.y + LabelOffset <= 4.5
    decreases |notes|
  {
    if notes != [] {
      MarksInsideLimits(notes[..|notes| - 1]);
      NotePositionsOnStaff();
    }
  }

  /** Every name the segmenter gives a note is plotted: all twelve names start with a natural letter. */
  lemma SegmentedNamesArePlotted(f: real, semitone: SemitoneIndex, n: Note)
    requires FrequencyToNoteName(f, semitone) == Some(n.noteName)
    ensures Plotted(n)
  {
  }

  // ---------------------------------------------------------------------------
  // Canvas to MIDI

  /** Seconds per canvas column. */
  const TimeStep: real := 0.25
  const LowestPitch: int := 60
  const HighestPitch: int := 84
  /** A pixel darker than this counts as drawn. */
  const DrawnThreshold: real := 200.0

  /** The drawing widget's result; its `image_data` is a grid of gray values, row by column. */
  datatype CanvasData = CanvasData(imageData: Option<array2<real>>)

  datatype Pixel = Pixel(x: nat, y: nat)

  /** Python's `int()` on a float: truncation toward zero. */
  function Trunc(r: real): int {
    if r >= 0.0 then r.Floor else -((-r).Floor)
  }

  function Min(a: int, b: int): int {
    if b < a then b else a
  }

  function Max(a: int, b: int): int {
    if b > a then b else a
  }

  /** The unclamped pitch of row `y` of a canvas `height` rows high: `int(84 - (y / height) * 24)`. */
  function RawPitch(y: nat, height: nat): int
    requires y < height
  {
    Trunc(HighestPitch as real - (y as real / height as real) * (HighestPitch - LowestPitch) as real)
  }

  /** The pitch of row `y`, clamped to [60, 84]. */
  function RowPitch(y: nat, height: nat): int
    requires y < height
  {
    Max(LowestPitch, Min(HighestPitch, RawPitch(y, height)))
  }

  /** The MIDI note of a drawn pixel: a quarter second at its column's time, at its row's pitch. */
  function PixelNote(p: Pixel, height: nat): MidiNote
    requires p.y < height
  {
    var start := p.x as real * TimeStep;
    MidiNote(Velocity, RowPitch(p.y, height), start, start + TimeStep)
  }

  /** The notes of a run of pixels, one per pixel, in the same order. */
  function PixelNotes(ps: seq<Pixel>, height: nat): (notes: seq<MidiNote>)
    requires forall p :: p in ps ==> p.y < height
    ensures |notes| == |ps|
    ensures forall k :: 0 <= k < |ps| ==> notes[k] == PixelNote(ps[k], height)
    decreases |ps|
  {
    if ps == [] then [] else PixelNotes(ps[..|ps| - 1], height) + [PixelNote(ps[|ps| - 1], height)]
  }

  lemma PixelNotesSnoc(ps: seq<Pixel>, p: Pixel, height: nat)
    requires forall q :: q in ps ==> q.y < height
    requires p.y < height
    ensures PixelNotes(ps + [p], height) == PixelNotes(ps, height) + [PixelNote(p, height)]
  {
    assert (ps + [p])[..|ps|] == ps;
  }

  /** Drawn pixels among the first `rows` rows of column `x`, top to bottom. */
  function ColumnPixels(g: array2<real>, x: nat, rows: nat): (ps: seq<Pixel>)
    requires x < g.Length1 && rows <= g.Length0
    reads g
    ensures forall p :: p in ps ==> p.x == x && p.y < rows
    decreases rows
  {
    if rows == 0 then []
    else ColumnPixels(g, x, rows - 1) + (if g[rows - 1, x] < DrawnThreshold then [Pixel(x, rows - 1)] else [])
  }

  /** Drawn pixels of the first `cols` columns, column by column. */
  function DrawnPixels(g: array2<real>, cols: nat): (ps: seq<Pixel>)
    requires cols <= g.Length1
    reads g
    ensures forall p :: p in ps ==> p.x < cols && p.y < g.Length0
    decreases cols
  {
    if cols == 0 then [] else DrawnPixels(g, cols - 1) + ColumnPixels(g, cols - 1, g.Length0)
  }

  /** Concatenating pixel runs concatenates their notes. */
  lemma {:induction false} PixelNotesAppend(ps: seq<Pixel>, qs: seq<Pixel>, height: nat)
    requires forall p :: p in ps ==> p.y < height
    requires forall q :: q in qs ==> q.y < height
    ensures PixelNotes(ps + qs, height) == PixelNotes(ps, height) + PixelNotes(qs, height)
    decreases |qs|
  {
    if qs != [] {
      var init := qs[..|qs| - 1];
      var last := qs[|qs| - 1];
      assert qs == init + [last];
      assert ps + qs == (ps + init) + [last];
      PixelNotesAppend(ps, init, height);
      PixelNotesSnoc(ps + init, last, height);
      PixelNotesSnoc(init, last, height);
    } else {
      assert ps + qs == ps;
    }
  }

  /** One row of a column scan: what visiting pixel `(x, y)` adds to the column's pixels and notes. */
  lemma ColumnStep(img: array2<real>, x: nat, y: nat, drawn: seq<Pixel>)
    requires x < img.Length1 && y < img.Length0
    requires drawn == ColumnPixels(img, x, y)
    ensures img[y, x] < DrawnThreshold ==>
      && ColumnPixels(img, x, y + 1) == drawn + [Pixel(x, y)]
      && PixelNotes(drawn + [Pixel(x, y)], img.Length0)
         == PixelNotes(drawn, img.Length0) + [PixelNote(Pixel(x, y), img.Length0)]
    ensures img[y, x] >= DrawnThreshold ==> ColumnPixels(img, x, y + 1) == drawn
  {
    if img[y, x] < DrawnThreshold {
      PixelNotesSnoc(drawn, Pixel(x, y), img.Length0);
    }
  }

  /**
   * One column of `canvas_to_midi`'s scan: walks the rows of column `x` top
   * to bottom and returns the note of every drawn pixel, in that order.
   */
  method ScanColumn(img: array2<real>, x: nat) returns (column: seq<MidiNote>)
    requires x < img.Length1
    ensures column == PixelNotes(ColumnPixels(img, x, img.Length0), img.Length0)
  {
    var height := img.Length0;
    column := [];
    ghost var drawn: seq<Pixel> := [];
    for y := 0 to height
      invariant drawn == ColumnPixels(img, x, y)
      invariant column == PixelNotes(drawn, height)
    {
      ColumnStep(img, x, y, drawn);
      if img[y, x] < DrawnThreshold {
        var pitch := RawPitch(y, height);
        pitch := Max(LowestPitch, Min(HighestPitch, pitch));
        var startTime := x as real * TimeStep;
        var endTime := startTime + TimeStep;
        assert MidiNote(Velocity, pitch, startTime, endTime) == PixelNote(Pixel(x, y), height);
        column := column + [MidiNote(Velocity, pitch, startTime, endTime)];
        drawn := drawn + [Pixel(x, y)];
      }
    }
  }

  /**
   * `canvas_to_midi`: `None` (the source's `False`) when there is no canvas
   * or no image data; otherwise one piano instrument holding the note of
   * every drawn pixel, column by column and top to bottom within a column.
   */
  method CanvasToMidi(canvas: Option<CanvasData>) returns (r: Option<PrettyMidi>)
    ensures r.Some? <==> canvas.Some? && canvas.value.imageData.Some?
    ensures r.Some? ==> |r.value.instruments| == 1 && r.value.instruments[0].program == Piano
    ensures r.Some? ==>
      var g := canvas.value.imageData.value;
      r.value.instruments[0].notes == PixelNotes(DrawnPixels(g, g.Length1), g.Length0)
  {
    if canvas.None? || canvas.value.imageData.None? {
      return None;
    }
    var img := canvas.value.imageData.value;
    var events: seq<MidiNote> := [];
    for x := 0 to img.Length1
      invariant events == PixelNotes(DrawnPixels(img, x), img.Length0)
    {
      var column := ScanColumn(img, x);
      PixelNotesAppend(DrawnPixels(img, x), ColumnPixels(img, x, img.Length0), img.Length0);
      events := events + column;
    }
    r := Some(PrettyMidi([Instrument(Piano, events)]));
  }

  // ---------------------------------------------------------------------------
  // Properties of the canvas mapping

  /** The drawn pixels of a column are exactly its rows darker than the threshold. */
  lemma {:induction false} ColumnPixelsExact(g: array2<real>, x: nat, rows: nat)
    requires x < g.Length1 && rows <= g.Length0
    ensures forall p :: p in ColumnPixels(g, x, rows) <==> p.x == x && p.y < rows && g[p.y, x] < DrawnThreshold
    decreases rows
  {
    if rows > 0 {
      ColumnPixelsExact(g, x, rows - 1);
    }
  }

  /** One note per drawn pixel: the pixels scanned are exactly those darker than the threshold. */
  lemma {:induction false} DrawnPixelsExact(g: array2<real>, cols: nat)
    requires cols <= g.Length1
    ensures forall p :: p in DrawnPixels(g, cols) <==>
      p.x < cols && p.y < g.Length0 && g[p.y, p.x] < DrawnThreshold
    decreases cols
  {
    if cols > 0 {
      DrawnPixelsExact(g, cols - 1);
      ColumnPixelsExact(g, cols - 1, g.Length0);
      var prev, col := DrawnPixels(g, cols - 1), ColumnPixels(g, cols - 1, g.Length0);
      forall p
        ensures p in DrawnPixels(g, cols) <==> p.x < cols && p.y < g.Length0 && g[p.y, p.x] < DrawnThreshold
      {
        assert p in prev + col <==> p in prev || p in col;
      }
    }
  }

  /** Column-then-row order: `a` is visited before `b`. */
  predicate ScannedBefore(a: Pixel, b: Pixel) {
    a.x < b.x || (a.x == b.x && a.y < b.y)
  }

  /** Every pixel of `ps` comes before all later ones in the scan. */
  predicate InScanOrder(ps: seq<Pixel>) {
    forall i, j :: 0 <= i < j < |ps| ==> ScannedBefore(ps[i], ps[j])
  }

  /** Within a column, pixels are visited top to bottom. */
  lemma {:induction false} ColumnPixelsOrdered(g: array2<real>, x: nat, rows: nat)
    requires x < g.Length1 && rows <= g.Length0
    ensures InScanOrder(ColumnPixels(g, x, rows))
    decreases rows
  {
    if rows > 0 {
      ColumnPixelsOrdered(g, x, rows - 1);
      var prev := ColumnPixels(g, x, rows - 1);
      var ps := ColumnPixels(g, x, rows);
      assert InScanOrder(prev);
      forall i, j | 0 <= i < j < |ps|
        ensures ScannedBefore(ps[i], ps[j])
      {
        if j < |prev| {
          assert ps[i] == prev[i] && ps[j] == prev[j];
        } else {
          assert ps[j] == Pixel(x, rows - 1);
          assert ps[i] == prev[i] && prev[i] in prev;
        }
      }
    }
  }

  /** The scan visits pixels column by column, top to bottom within a column, each once. */
  lemma {:induction false} DrawnPixelsOrdered(g: array2<real>, cols: nat)
    requires cols <= g.Length1
    ensures InScanOrder(DrawnPixels(g, cols))
    decreases cols
  {
    if cols > 0 {
      DrawnPixelsOrdered(g, cols - 1);
      ColumnPixelsOrdered(g, cols - 1, g.Length0);
      var prev := DrawnPixels(g, cols - 1);
      var col := ColumnPixels(g, cols - 1, g.Length0);
      var ps := DrawnPixels(g, cols);
      assert InScanOrder(prev) && InScanOrder(col);
      forall i, j | 0 <= i < j < |ps|
        ensures ScannedBefore(ps[i], ps[j])
      {
        if j < |prev| {
          assert ps[i] == prev[i] && ps[j] == prev[j];
        } else if i < |prev| {
          assert ps[i] == prev[i] && prev[i] in prev;
          assert ps[j] == col[j - |prev|] && col[j - |prev|] in col;
        } else {
          assert ps[i] == col[i - |prev|] && ps[j] == col[j - |prev|];
        }
      }
    }
  }

  /** The clamp to [60, 84] never fires: the unclamped pitch of any row is already in range. */
  lemma RowPitchUnclamped(y: nat, height: nat)
    requires y < height
    ensures LowestPitch <= RawPitch(y, height) <= HighestPitch
    ensures RowPitch(y, height) == RawPitch(y, height)
  {
    var q := y as real / height as real;
    assert 0.0 <= q < 1.0 by {
      assert q * height as real == y as real;
    }
    var v := HighestPitch as real - q * (HighestPitch - LowestPitch) as real;
    assert 60.0 < v <= 84.0;
  }

  /**
   * An integer reference for the pitch of a row: 84 less 24·y/height
   * rounded up, computed without floating point.
   */
  lemma RowPitchInIntegers(y: nat, height: nat)
    requires y < height
    ensures RowPitch(y, height) == HighestPitch - (24 * y + height - 1) / height
  {
    RowPitchUnclamped(y, height);
    var c := (24 * y + height - 1) / height;
    assert (c - 1) * height < 24 * y <= c * height;
    var h := height as real;
    var n := 24.0 * y as real;
    CastProduct(c - 1, height);
    CastProduct(c, height);
    assert (n / h) * h == n;
    QuotientBounds(n, c as real, h, n / h);
    ScaledQuotient(y as real, h);
    var v := 84.0 - n / h;
    assert HighestPitch as real - (y as real / h) * (HighestPitch - LowestPitch) as real == v;
    FloorBetween(v, 84 - c);
  }

  lemma CastProduct(a: int, b: int)
    ensures (a * b) as real == a as real * b as real
  {
  }

  lemma QuotientBounds(n: real, c: real, h: real, q: real)
    requires 0.0 < h && q * h == n && (c - 1.0) * h < n <= c * h
    ensures c - 1.0 < q <= c
  {
    ProductOrder(c - 1.0, q, h);
    ProductOrder(q, c, h);
  }

  lemma ProductOrder(x: real, y: real, h: real)
    requires 0.0 < h
    ensures x * h < y * h ==> x < y
    ensures x * h <= y * h ==> x <= y
  {
    assert (x - y) * h == x * h - y * h;
    if x > y {
      assert (x - y) * h > 0.0;
    }
    if x == y {
      assert x * h == y * h;
    }
  }

  lemma ScaledQuotient(a: real, h: real)
    requires 0.0 < h
    ensures (a / h) * 24.0 == (24.0 * a) / h
  {
    var q := a / h;
    var r := (24.0 * a) / h;
    assert q * h == a;
    assert r * h == 24.0 * a;
    assert (q * 24.0) * h == 24.0 * a;
    ProductCancel(r, q * 24.0, h);
  }

  lemma ProductCancel(x: real, y: real, h: real)
    requires 0.0 < h && x * h == y * h
    ensures x == y
  {
  }

  lemma FloorBetween(v: real, k: int)
    requires k as real <= v < (k + 1) as real
    ensures v.Floor == k
  {
  }

  /** The top row gets the highest pitch, 84. */
  lemma TopRowIsHighest(height: nat)
    requires 0 < height
    ensures RowPitch(0, height) == HighestPitch
  {
  }

  /** Pitch never rises as the row moves down the canvas. */
  lemma RowPitchNonIncreasing(y1: nat, y2: nat, height: nat)
    requires y1 <= y2 < height
    ensures RowPitch(y2, height) <= RowPitch(y1, height)
  {
    RowPitchUnclamped(y1, height);
    RowPitchUnclamped(y2, height);
    QuotientMonotone(y1 as real, y2 as real, height as real);
  }

  lemma QuotientMonotone(a: real, b: real, c: real)
    requires 0.0 <= a <= b && 0.0 < c
    ensures a / c <= b / c
  {
  }

  /**
   * The notes of a drawn canvas: each at velocity 100, a pitch in [60, 84],
   * a quarter second long, starting at its column's time.
   */
  lemma CanvasNotes(g: array2<real>)
    ensures var ps := DrawnPixels(g, g.Length1);
      var notes := PixelNotes(ps, g.Length0);
      forall k :: 0 <= k < |notes| ==>
        && notes[k].velocity == Velocity
        && LowestPitch <= notes[k].pitch <= HighestPitch
        && notes[k].start == ps[k].x as real * TimeStep
        && notes[k].end == notes[k].start + TimeStep
  {
    var ps := DrawnPixels(g, g.Length1);
    forall k | 0 <= k < |ps|
      ensures LowestPitch <= RowPitch(ps[k].y, g.Length0) <= HighestPitch
    {
      RowPitchUnclamped(ps[k].y, g.Length0);
    }
  }

  /** Start times never decrease along a canvas's notes. */
  lemma CanvasNotesInTimeOrder(g: array2<real>)
    ensures var notes := PixelNotes(DrawnPixels(g, g.Length1), g.Length0);
      forall i, j :: 0 <= i < j < |notes| ==> notes[i].start <= notes[j].start
  {
    var ps := DrawnPixels(g, g.Length1);
    DrawnPixelsOrdered(g, g.Length1);
    assert InScanOrder(ps);
    forall i, j | 0 <= i < j < |ps|
      ensures ps[i].x as real * TimeStep <= ps[j].x as real * TimeStep
    {
      assert ScannedBefore(ps[i], ps[j]);
    }
  }
}
