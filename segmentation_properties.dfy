/**
 * What the segmenter of `process_whistle_audio` promises about the notes
 * it returns: every note lasts at least the minimum duration, silence gives
 * no notes, every note is a run of frames anchored at the frame that
 * opened it, notes of a time-ordered stream are ordered and disjoint, and
 * low-confidence frames count as silence whatever their raw frequency.
 */
module SegmentationProperties {
  import opened Wrappers
  import opened AudioProcessing

  /**
   * Frame `frame` would extend an open note anchored at `anchor` Hz: it has
   * a note name (its frequency is above C0) and lies strictly within 50 Hz
   * of the anchor.
   */
  ghost predicate Extends(frame: Frame, anchor: real) {
    frame.frequency > C0 && Abs(frame.frequency - anchor) < NoteThreshold
  }

  /**
   * Note `n` spans frames `i..j`: it opened at frame `i` with that frame's
   * time, frequency and name, every later frame up to `j` extended it, and
   * it ends at frame `j`'s time.
   */
  ghost predicate SpansRun(frames: seq<Frame>, i: int, j: int, n: Note, semitone: SemitoneIndex) {
    && 0 <= i <= j < |frames|
    && n.startTime == frames[i].time
    && n.frequency == frames[i].frequency
    && NameOf(frames[i], semitone) == Some(n.noteName)
    && n.endTime == frames[j].time
    && forall k :: i < k <= j ==> Extends(frames[k], n.frequency)
  }

  /** Strictly increasing frame times, as the estimator's fixed analysis step gives. */
  ghost predicate TimesIncrease(frames: seq<Frame>) {
    forall a, b :: 0 <= a < b < |frames| ==> frames[a].time < frames[b].time
  }

  /** Scanning one more frame is one more `Step`. */
  lemma ScanSnoc(frames: seq<Frame>, frame: Frame, semitone: SemitoneIndex)
    ensures var before := Scan(frames, semitone);
      var after := Step(before.0, frame, semitone);
      Scan(frames + [frame], semitone) == (after.0, before.1 + after.1)
  {
    assert (frames + [frame])[..|frames|] == frames;
  }

  lemma ScanPrefix(frames: seq<Frame>, k: nat, semitone: SemitoneIndex)
    requires 0 < k <= |frames|
    ensures var before := Scan(frames[..k - 1], semitone);
      var after := Step(before.0, frames[k - 1], semitone);
      Scan(frames[..k], semitone) == (after.0, before.1 + after.1)
  {
    assert frames[..k] == frames[..k - 1] + [frames[k - 1]];
    ScanSnoc(frames[..k - 1], frames[k - 1], semitone);
  }

  // ---------------------------------------------------------------------------
  // Minimum duration

  lemma {:induction false} ScanKeepsLongNotes(frames: seq<Frame>, semitone: SemitoneIndex)
    ensures forall n :: n in Scan(frames, semitone).1 ==> LongEnough(n)
    decreases |frames|
  {
    if frames != [] {
      ScanKeepsLongNotes(frames[..|frames| - 1], semitone);
    }
  }

  /** Every returned note lasts at least 0.1 s; shorter ones are dropped at every emit point. */
  lemma SegmentMinDuration(frames: seq<Frame>, semitone: SemitoneIndex)
    ensures forall n :: n in Segment(frames, semitone) ==>
      n.endTime - n.startTime >= MinDuration && n.startTime < n.endTime
  {
    ScanKeepsLongNotes(frames, semitone);
  }

  // ---------------------------------------------------------------------------
  // Silence

  lemma {:induction false} ScanOfSilence(frames: seq<Frame>, semitone: SemitoneIndex)
    requires forall i :: 0 <= i < |frames| ==> frames[i].frequency <= C0
    ensures Scan(frames, semitone) == (Idle, [])
    decreases |frames|
  {
    if frames != [] {
      var k := |frames|;
      assert frames[..k] == frames;
      ScanOfSilence(frames[..k - 1], semitone);
      ScanPrefix(frames, k, semitone);
      assert NameOf(frames[k - 1], semitone).None?;
      assert Scan(frames[..k - 1], semitone) == (Idle, []);
      var none: seq<Note> := [];
      assert Step(Idle, frames[k - 1], semitone) == (Idle, none);
      assert none + none == none;
    }
  }

  /**
   * A stream in which no frame is above C0 (so no frame has a name: the
   * unvoiced ones at 0 Hz included) yields the empty note list.
   */
  lemma SegmentOfSilence(frames: seq<Frame>, semitone: SemitoneIndex)
    requires forall i :: 0 <= i < |frames| ==> frames[i].frequency <= C0
    ensures Segment(frames, semitone) == []
  {
    ScanOfSilence(frames, semitone);
  }

  // ---------------------------------------------------------------------------
  // Transitions

  /**
   * The transition of an open note on a named frame: it extends (only the
   * end time moves) exactly when the frame is strictly within 50 Hz of the
   * anchor; at 50 Hz or more the note is closed and a new one opens at the
   * frame.  An unnamed frame closes the note.
   */
  lemma OpenNoteTransitions(n: Note, frame: Frame, semitone: SemitoneIndex)
    ensures NameOf(frame, semitone).None? ==> Step(Open(n), frame, semitone) == (Idle, Keep(n))
    ensures NameOf(frame, semitone).Some? && Abs(frame.frequency - n.frequency) < NoteThreshold ==>
      Step(Open(n), frame, semitone) == (Open(Note(n.startTime, frame.time, n.noteName, n.frequency)), [])
    ensures NameOf(frame, semitone).Some? && Abs(frame.frequency - n.frequency) >= NoteThreshold ==>
      Step(Open(n), frame, semitone) ==
        (Open(Note(frame.time, frame.time, NameOf(frame, semitone).value, frame.frequency)), Keep(n))
  {
  }

  // ---------------------------------------------------------------------------
  // Anchoring

  /** The open note spans a run of frames that ends at frame `j`. */
  ghost predicate OpenRun(frames: seq<Frame>, j: int, n: Note, semitone: SemitoneIndex) {
    exists i :: SpansRun(frames, i, j, n, semitone)
  }

  /** An emitted note spans a run of frames closed by a frame before index `k`. */
  ghost predicate ClosedRun(frames: seq<Frame>, k: int, n: Note, semitone: SemitoneIndex) {
    exists i, j :: SpansRun(frames, i, j, n, semitone) && j + 1 < k && j + 1 < |frames| && !Extends(frames[j + 1], n.frequency)
  }

  ghost predicate AnchorInvariant(frames: seq<Frame>, k: int, sc: (Slot, seq<Note>), semitone: SemitoneIndex) {
    && (sc.0.Open? ==> k > 0 && OpenRun(frames, k - 1, sc.0.note, semitone))
    && forall n :: n in sc.1 ==> ClosedRun(frames, k, n, semitone)
  }

  /**
   * The outcomes of one step in terms of `Extends`: a note is emitted only
   * when the open note is closed by a frame that does not extend it, and the
   * slot afterwards is either that note extended to the frame or a note
   * opened at the frame.
   */
  lemma StepCases(slot: Slot, frame: Frame, semitone: SemitoneIndex)
    ensures var after := Step(slot, frame, semitone);
      && (after.1 == [] || (slot.Open? && after.1 == [slot.note] && !Extends(frame, slot.note.frequency)))
      && (after.0.Open? ==>
            || (slot.Open? && Extends(frame, slot.note.frequency) && after.1 == []
                && after.0.note == slot.note.(endTime := frame.time))
            || (NameOf(frame, semitone) == Some(after.0.note.noteName)
                && after.0.note == Note(frame.time, frame.time, after.0.note.noteName, frame.frequency)))
  {
  }

  lemma ClosedRunsStay(frames: seq<Frame>, k: nat, notes: seq<Note>, semitone: SemitoneIndex)
    requires forall n :: n in notes ==> ClosedRun(frames, k - 1, n, semitone)
    ensures forall n :: n in notes ==> ClosedRun(frames, k, n, semitone)
  {
    forall n | n in notes
      ensures ClosedRun(frames, k, n, semitone)
    {
      var i, j :| SpansRun(frames, i, j, n, semitone) && j + 1 < k - 1 && j + 1 < |frames| && !Extends(frames[j + 1], n.frequency);
    }
  }

  lemma ClosingRun(frames: seq<Frame>, k: nat, n: Note, semitone: SemitoneIndex)
    requires 1 < k <= |frames|
    requires OpenRun(frames, k - 2, n, semitone)
    requires !Extends(frames[k - 1], n.frequency)
    ensures ClosedRun(frames, k, n, semitone)
  {
    var i :| SpansRun(frames, i, k - 2, n, semitone);
  }

  lemma ExtendedRun(frames: seq<Frame>, k: nat, n: Note, semitone: SemitoneIndex)
    requires 1 < k <= |frames|
    requires OpenRun(frames, k - 2, n, semitone)
    requires Extends(frames[k - 1], n.frequency)
    ensures OpenRun(frames, k - 1, n.(endTime := frames[k - 1].time), semitone)
  {
    var i :| SpansRun(frames, i, k - 2, n, semitone);
    var m := n.(endTime := frames[k - 1].time);
    assert m.frequency == n.frequency;
    forall q | i < q <= k - 1
      ensures Extends(frames[q], m.frequency)
    {
      if q < k - 1 {
        assert Extends(frames[q], n.frequency);
      }
    }
    assert SpansRun(frames, i, k - 1, m, semitone);
  }

  lemma StepAnchored(frames: seq<Frame>, k: nat, sc: (Slot, seq<Note>), semitone: SemitoneIndex)
    requires 0 < k <= |frames|
    requires AnchorInvariant(frames, k - 1, sc, semitone)
    ensures var after := Step(sc.0, frames[k - 1], semitone);
      AnchorInvariant(frames, k, (after.0, sc.1 + after.1), semitone)
  {
    var frame := frames[k - 1];
    var after := Step(sc.0, frame, semitone);
    StepCases(sc.0, frame, semitone);
    ClosedRunsStay(frames, k, sc.1, semitone);
    if after.1 != [] {
      ClosingRun(frames, k, sc.0.note, semitone);
    }
    if after.0.Open? {
      var m := after.0.note;
      if sc.0.Open? && Extends(frame, sc.0.note.frequency) && after.1 == [] && m == sc.0.note.(endTime := frame.time) {
        ExtendedRun(frames, k, sc.0.note, semitone);
      } else {
        assert SpansRun(frames, k - 1, k - 1, m, semitone);
      }
    }
  }

  lemma {:induction false} ScanAnchored(frames: seq<Frame>, k: nat, semitone: SemitoneIndex)
    requires k <= |frames|
    ensures AnchorInvariant(frames, k, Scan(frames[..k], semitone), semitone)
    decreases k
  {
    if k > 0 {
      ScanAnchored(frames, k - 1, semitone);
      ScanPrefix(frames, k, semitone);
      StepAnchored(frames, k, Scan(frames[..k - 1], semitone), semitone);
    }
  }

  /**
   * Every returned note is the run of frames `i..j` it was built from: its
   * name and anchor frequency are those of the opening frame `i`, its start
   * and end are the times of frames `i` and `j`, every frame in between
   * stayed strictly within 50 Hz of the anchor, and frame `j + 1`, if any,
   * did not.
   */
  lemma SegmentAnchored(frames: seq<Frame>, semitone: SemitoneIndex)
    ensures forall n :: n in Segment(frames, semitone) ==>
      exists i, j :: SpansRun(frames, i, j, n, semitone) &&
        (j + 1 == |frames| || !Extends(frames[j + 1], n.frequency))
  {
    ScanAnchored(frames, |frames|, semitone);
    assert frames[..|frames|] == frames;
    var sc := Scan(frames, semitone);
    forall n | n in Segment(frames, semitone)
      ensures exists i, j :: (SpansRun(frames, i, j, n, semitone) &&
        (j + 1 == |frames| || !Extends(frames[j + 1], n.frequency)))
    {
      if n in sc.1 {
        var i, j :| SpansRun(frames, i, j, n, semitone) && j + 1 < |frames| && !Extends(frames[j + 1], n.frequency);
      } else {
        assert n == sc.0.note;
        var i :| SpansRun(frames, i, |frames| - 1, n, semitone);
      }
    }
  }

  // ---------------------------------------------------------------------------
  // Ordering

  /** Consecutive notes are disjoint: each ends before the next begins. */
  ghost predicate Disjoint(notes: seq<Note>) {
    forall a :: 0 <= a < |notes| - 1 ==> notes[a].endTime < notes[a + 1].startTime
  }

  ghost predicate OrderInvariant(frames: seq<Frame>, k: int, sc: (Slot, seq<Note>)) {
    && 0 <= k <= |frames|
    && Disjoint(sc.1)
    && (sc.0.Open? ==> k > 0 && sc.0.note.startTime <= sc.0.note.endTime == frames[k - 1].time)
    && (sc.1 != [] ==> k > 0 && sc.1[|sc.1| - 1].endTime <= frames[k - 1].time)
    && (sc.1 != [] && sc.0.Open? ==> sc.1[|sc.1| - 1].endTime < sc.0.note.startTime)
  }

  lemma StepOrdered(frames: seq<Frame>, k: nat, sc: (Slot, seq<Note>), semitone: SemitoneIndex)
    requires TimesIncrease(frames)
    requires 0 < k <= |frames|
    requires OrderInvariant(frames, k - 1, sc)
    ensures var after := Step(sc.0, frames[k - 1], semitone);
      OrderInvariant(frames, k, (after.0, sc.1 + after.1))
  {
    var frame := frames[k - 1];
    var after := Step(sc.0, frame, semitone);
    StepCases(sc.0, frame, semitone);
    if k >= 2 {
      assert frames[k - 2].time < frame.time;
    }
    var out := sc.1 + after.1;
    if after.1 != [] {
      assert Disjoint(out) by {
        assert out == sc.1 + [sc.0.note];
      }
    } else {
      assert out == sc.1;
    }
  }

  lemma {:induction false} ScanOrdered(frames: seq<Frame>, k: nat, semitone: SemitoneIndex)
    requires TimesIncrease(frames)
    requires k <= |frames|
    ensures OrderInvariant(frames, k, Scan(frames[..k], semitone))
    decreases k
  {
    if k > 0 {
      ScanOrdered(frames, k - 1, semitone);
      ScanPrefix(frames, k, semitone);
      StepOrdered(frames, k, Scan(frames[..k - 1], semitone), semitone);
    }
  }

  /**
   * For a stream with strictly increasing frame times, the returned notes
   * are disjoint and in order: each note ends strictly before the next one
   * starts, so start times strictly increase.
   */
  lemma SegmentOrdered(frames: seq<Frame>, semitone: SemitoneIndex)
    requires TimesIncrease(frames)
    ensures var notes := Segment(frames, semitone);
      forall a :: 0 <= a < |notes| - 1 ==>
        notes[a].endTime < notes[a + 1].startTime && notes[a].startTime < notes[a + 1].startTime
  {
    ScanOrdered(frames, |frames|, semitone);
    assert frames[..|frames|] == frames;
    var sc := Scan(frames, semitone);
    var notes := Segment(frames, semitone);
    assert Disjoint(notes) by {
      if Close(sc.0) == [] {
        assert notes == sc.1;
      } else {
        DisjointSnoc(sc.1, sc.0.note);
      }
    }
    SegmentMinDuration(frames, semitone);
    forall a | 0 <= a < |notes| - 1
      ensures notes[a].endTime < notes[a + 1].startTime && notes[a].startTime < notes[a + 1].startTime
    {
      assert notes[a] in notes;
    }
  }

  lemma DisjointSnoc(notes: seq<Note>, n: Note)
    requires Disjoint(notes)
    requires notes != [] ==> notes[|notes| - 1].endTime < n.startTime
    ensures Disjoint(notes + [n])
  {
  }

  // ---------------------------------------------------------------------------
  // The confidence gate

  /**
   * Two estimator outputs that differ only in the frequency of frames whose
   * confidence is below 0.5 give the same notes: after the gate such
   * frames are silent whatever their raw frequency.
   */
  lemma LowConfidenceIsSilence(a: PitchTrack, b: PitchTrack, semitone: SemitoneIndex)
    requires |a.frequency| == |a.confidence| && |b.frequency| == |b.confidence|
    requires a.time == b.time && a.confidence == b.confidence
    requires |a.frequency| == |b.frequency|
    requires forall i :: 0 <= i < |a.frequency| && a.confidence[i] >= ConfidenceThreshold ==>
      a.frequency[i] == b.frequency[i]
    ensures Segment(Frames(PitchTrack(a.time, GatedFrequency(a.frequency, a.confidence), a.confidence)), semitone)
         == Segment(Frames(PitchTrack(b.time, GatedFrequency(b.frequency, b.confidence), b.confidence)), semitone)
  {
    assert GatedFrequency(a.frequency, a.confidence) == GatedFrequency(b.frequency, b.confidence);
  }

  /** After the gate, a frame whose confidence is below 0.5 carries no note name. */
  lemma GatedFrameIsUnnamed(track: PitchTrack, i: nat, semitone: SemitoneIndex)
    requires |track.frequency| == |track.confidence|
    requires i < |Frames(PitchTrack(track.time, GatedFrequency(track.frequency, track.confidence), track.confidence))|
    ensures var frames := Frames(PitchTrack(track.time, GatedFrequency(track.frequency, track.confidence), track.confidence));
      frames[i].confidence < ConfidenceThreshold ==> frames[i].frequency == 0.0 && NameOf(frames[i], semitone).None?
  {
  }

  // ---------------------------------------------------------------------------
  // Scenarios

  lemma NameOfFrame(frame: Frame, semitone: SemitoneIndex)
    ensures frame.frequency > C0 ==> NameOf(frame, semitone) == Some(PitchName(semitone(frame.frequency)))
    ensures frame.frequency <= C0 ==> NameOf(frame, semitone) == None
  {
  }

  lemma ScanEmpty(semitone: SemitoneIndex)
    ensures Scan([], semitone) == (Idle, [])
  {
  }

  /** The opening eighth of a second of both threshold scenarios: one note at 440 Hz, still open. */
  lemma SteadyEighthAt440(semitone: SemitoneIndex)
    ensures Scan([Frame(0.0, 440.0, 0.9), Frame(0.125, 440.0, 0.9)], semitone)
         == (Open(Note(0.0, 0.125, PitchName(semitone(440.0)), 440.0)), [])
  {
    var f0, f1 := Frame(0.0, 440.0, 0.9), Frame(0.125, 440.0, 0.9);
    var a := Note(0.0, 0.125, PitchName(semitone(440.0)), 440.0);
    var none: seq<Note> := [];
    ScanEmpty(semitone);
    NameOfFrame(f0, semitone);
    NameOfFrame(f1, semitone);
    assert Scan([f0], semitone) == (Open(a.(endTime := 0.0)), none) by {
      ScanSnoc([], f0, semitone);
      assert [] + [f0] == [f0];
      assert none + none == none;
    }
    ScanSnoc([f0], f1, semitone);
    assert [f0] + [f1] == [f0, f1];
    assert none + none == none;
  }

  /**
   * Two 0.125 s stretches at 440 Hz and 490 Hz: the 50 Hz jump is not
   * strictly below the threshold, so the stream splits into two notes.
   */
  lemma SplitAtExactlyFiftyHertz(semitone: SemitoneIndex)
    ensures Segment([Frame(0.0, 440.0, 0.9), Frame(0.125, 440.0, 0.9), Frame(0.25, 490.0, 0.9), Frame(0.375, 490.0, 0.9)], semitone)
         == [Note(0.0, 0.125, PitchName(semitone(440.0)), 440.0), Note(0.25, 0.375, PitchName(semitone(490.0)), 490.0)]
  {
    var f0, f1, f2, f3 := Frame(0.0, 440.0, 0.9), Frame(0.125, 440.0, 0.9), Frame(0.25, 490.0, 0.9), Frame(0.375, 490.0, 0.9);
    var a := Note(0.0, 0.125, PitchName(semitone(440.0)), 440.0);
    var b := Note(0.25, 0.375, PitchName(semitone(490.0)), 490.0);
    var none: seq<Note> := [];
    SteadyEighthAt440(semitone);
    NameOfFrame(f2, semitone);
    NameOfFrame(f3, semitone);
    assert Scan([f0, f1, f2], semitone) == (Open(b.(endTime := 0.25)), [a]) by {
      ScanSnoc([f0, f1], f2, semitone);
      assert [f0, f1] + [f2] == [f0, f1, f2];
      assert none + [a] == [a];
    }
    ScanSnoc([f0, f1, f2], f3, semitone);
    assert [f0, f1, f2] + [f3] == [f0, f1, f2, f3];
    assert [a] + none == [a];
  }

  /** The same stream with a 49.9 Hz jump stays one note from 0.0 s to 0.375 s. */
  lemma MergeBelowFiftyHertz(semitone: SemitoneIndex)
    ensures Segment([Frame(0.0, 440.0, 0.9), Frame(0.125, 440.0, 0.9), Frame(0.25, 489.9, 0.9), Frame(0.375, 489.9, 0.9)], semitone)
         == [Note(0.0, 0.375, PitchName(semitone(440.0)), 440.0)]
  {
    var f0, f1, f2, f3 := Frame(0.0, 440.0, 0.9), Frame(0.125, 440.0, 0.9), Frame(0.25, 489.9, 0.9), Frame(0.375, 489.9, 0.9);
    var a := Note(0.0, 0.375, PitchName(semitone(440.0)), 440.0);
    var none: seq<Note> := [];
    SteadyEighthAt440(semitone);
    NameOfFrame(f2, semitone);
    NameOfFrame(f3, semitone);
    assert Scan([f0, f1, f2], semitone) == (Open(a.(endTime := 0.25)), none) by {
      ScanSnoc([f0, f1], f2, semitone);
      assert [f0, f1] + [f2] == [f0, f1, f2];
      assert none + none == none;
    }
    ScanSnoc([f0, f1, f2], f3, semitone);
    assert [f0, f1, f2] + [f3] == [f0, f1, f2, f3];
    assert none + none == none;
  }

  /** A 0.04 s burst at 800 Hz between unvoiced frames is too short and gives no note. */
  lemma ShortSpikeIsDropped(semitone: SemitoneIndex)
    ensures Segment([Frame(0.0, 0.0, 0.1), Frame(0.01, 800.0, 0.9), Frame(0.05, 800.0, 0.9), Frame(0.06, 0.0, 0.1)], semitone) == []
  {
    var f0, f1, f2, f3 := Frame(0.0, 0.0, 0.1), Frame(0.01, 800.0, 0.9), Frame(0.05, 800.0, 0.9), Frame(0.06, 0.0, 0.1);
    var spike := Note(0.01, 0.05, PitchName(semitone(800.0)), 800.0);
    var none: seq<Note> := [];
    ScanEmpty(semitone);
    assert Scan([f0], semitone) == (Idle, none) by {
      ScanSnoc([], f0, semitone);
      assert [] + [f0] == [f0];
      assert none + none == none;
      NameOfFrame(f0, semitone);
    }
    assert Scan([f0, f1], semitone) == (Open(spike.(endTime := 0.01)), none) by {
      ScanSnoc([f0], f1, semitone);
      assert [f0] + [f1] == [f0, f1];
      assert none + none == none;
      NameOfFrame(f1, semitone);
    }
    assert Scan([f0, f1, f2], semitone) == (Open(spike), none) by {
      ScanSnoc([f0, f1], f2, semitone);
      assert [f0, f1] + [f2] == [f0, f1, f2];
      assert none + none == none;
      NameOfFrame(f2, semitone);
    }
    assert Scan([f0, f1, f2, f3], semitone) == (Idle, none) by {
      ScanSnoc([f0, f1, f2], f3, semitone);
      assert [f0, f1, f2] + [f3] == [f0, f1, f2, f3];
      assert none + none == none;
      NameOfFrame(f3, semitone);
    }
  }
}
