/**
 * The whistle-to-notes core of `audio_processing.py`: the confidence gate
 * applied to the pitch estimator's output, the naming of a frequency as a
 * pitch class plus octave, and the segmenter that groups per-frame pitch
 * estimates into notes with a single "current note" slot.
 *
 * Times and frequencies are `real`.  The pitch estimator itself (CREPE and
 * the resampling before it) is not modelled: its output, or its failure,
 * is the input `estimate`.  The floating-point step
 * `round(12 * log2(f / C0))` is the parameter `semitone`.
 */
module AudioProcessing {
  import opened Wrappers
  import Decimal

  /** C0 = 440 * 2^-4.75 Hz, written as the shortest decimal of the double the source computes. */
  const C0: real := 16.351597831287414
  /** Frames whose confidence is below this are treated as unvoiced. */
  const ConfidenceThreshold: real := 0.5
  /** A named frame closer than this to the open note's anchor frequency extends the note. */
  const NoteThreshold: real := 50.0
  /** Shortest note that is kept, in seconds. */
  const MinDuration: real := 0.1

  const NoteNames: seq<string> := ["C", "C#", "D", "D#", "E", "F", "F#", "G", "G#", "A", "A#", "B"]

  /** The rounded semitone distance from C0, `round(12 * log2(f / C0))`. */
  type SemitoneIndex = real -> int

  /** Output of the pitch estimator: three parallel arrays. */
  datatype PitchTrack = PitchTrack(time: seq<real>, frequency: seq<real>, confidence: seq<real>)

  /** One analysis frame, as produced by zipping the three arrays. */
  datatype Frame = Frame(time: real, frequency: real, confidence: real)

  /** A detected note; `frequency` is the anchor frequency of the frame that opened it. */
  datatype Note = Note(startTime: real, endTime: real, noteName: string, frequency: real)

  // ---------------------------------------------------------------------------
  // Note names

  /** Index of a pitch-class name in `NoteNames`. */
  function PitchClassOf(name: string): Option<int>
  {
    if name == "C" then Some(0) else if name == "C#" then Some(1)
    else if name == "D" then Some(2) else if name == "D#" then Some(3)
    else if name == "E" then Some(4) else if name == "F" then Some(5)
    else if name == "F#" then Some(6) else if name == "G" then Some(7)
    else if name == "G#" then Some(8) else if name == "A" then Some(9)
    else if name == "A#" then Some(10) else if name == "B" then Some(11)
    else None
  }

  /** The name of semitone `h` above C0: pitch class `h % 12`, then octave `h // 12`. */
  function PitchName(h: int): string
  {
    NoteNames[h % 12] + Decimal.IntToString(h / 12)
  }

  /**
   * Reads a name such as "C#4" or "A-1" back into its semitone index
   * `12 * octave + pitch class`; the inverse of `PitchName`.
   */
  function ParseNoteName(s: string): Option<int>
  {
    var len := if |s| >= 2 && s[1] == '#' then 2 else 1;
    if |s| <= len then None
    else match PitchClassOf(s[..len])
      case None => None
      case Some(pc) =>
        match Decimal.ParseInt(s[len..])
        case None => None
        case Some(octave) => Some(12 * octave + pc)
  }

  lemma PitchClassOfName(pc: int)
    requires 0 <= pc < 12
    ensures PitchClassOf(NoteNames[pc]) == Some(pc)
    ensures 1 <= |NoteNames[pc]| <= 2
    ensures |NoteNames[pc]| == 2 ==> NoteNames[pc][1] == '#'
    ensures NoteNames[pc][0] in "CDEFGAB"
  {
  }

  /** A pitch-class name followed by an octave number reads back as `12 * octave + pitch class`. */
  lemma ParseNoteNameOf(name: string, digits: string, pc: int, octave: int)
    requires PitchClassOf(name) == Some(pc)
    requires 1 <= |name| <= 2 && (|name| == 2 ==> name[1] == '#')
    requires |digits| >= 1 && (digits[0] == '-' || Decimal.IsDigit(digits[0]))
    requires Decimal.ParseInt(digits) == Some(octave)
    ensures ParseNoteName(name + digits) == Some(12 * octave + pc)
  {
    var s := name + digits;
    var len := |name|;
    assert s[..len] == name;
    assert s[len..] == digits;
    if len == 1 {
      assert s[1] == digits[0];
    }
  }

  /** The name of semitone `h` determines `h`: it decodes back to exactly `h`. */
  lemma PitchNameRoundTrip(h: int)
    ensures ParseNoteName(PitchName(h)) == Some(h)
  {
    var pc, octave := h % 12, h / 12;
    PitchClassOfName(pc);
    Decimal.ParseIntToString(octave);
    ParseNoteNameOf(NoteNames[pc], Decimal.IntToString(octave), pc, octave);
  }

  /**
   * `frequency_to_note_name`: `None` at or below C0 (including every
   * non-positive frequency), otherwise the name of the nearest semitone.
   */
  function FrequencyToNoteName(f: real, semitone: SemitoneIndex): (r: Option<string>)
    ensures r.Some? <==> f > C0
    ensures r.Some? ==> |r.value| >= 2 && r.value[0] in "CDEFGAB"
  {
    if f <= 0.0 then None
    else if f > C0 then
      var h := semitone(f);
      PitchClassOfName(h % 12);
      Some(PitchName(h))
    else None
  }

  /**
   * A returned name is the name of the frequency's semitone: read back, it
   * gives pitch class `h % 12` and octave `h // 12` of `h = semitone(f)`.
   */
  lemma NoteNameNamesSemitone(f: real, semitone: SemitoneIndex)
    requires f > C0
    ensures ParseNoteName(FrequencyToNoteName(f, semitone).value) == Some(semitone(f))
  {
    PitchNameRoundTrip(semitone(f));
  }

  // ---------------------------------------------------------------------------
  // Pitch extraction: the confidence gate

  /** The frequency array after the gate: zero wherever confidence is below the threshold. */
  function GatedFrequency(frequency: seq<real>, confidence: seq<real>): seq<real>
    requires |frequency| == |confidence|
  {
    seq(|frequency|, i requires 0 <= i < |frequency| =>
      if confidence[i] < ConfidenceThreshold then 0.0 else frequency[i])
  }

  /** The masked assignment `frequency[confidence < 0.5] = 0`, in place. */
  method GateLowConfidence(frequency: array<real>, confidence: seq<real>)
    requires frequency.Length == |confidence|
    modifies frequency
    ensures frequency[..] == GatedFrequency(old(frequency[..]), confidence)
  {
    forall i | 0 <= i < frequency.Length && confidence[i] < ConfidenceThreshold {
      frequency[i] := 0.0;
    }
  }

  /**
   * `extract_pitch_from_audio` after the estimator has run: `None` when the
   * estimator failed or the confidence mask does not fit the frequency
   * array; otherwise the same frames and times with low-confidence
   * frequencies zeroed.
   */
  method ExtractPitchFromAudio(estimate: Option<PitchTrack>) returns (r: Option<PitchTrack>)
    ensures r.None? <==> estimate.None? || |estimate.value.confidence| != |estimate.value.frequency|
    ensures r.Some? ==> r.value.time == estimate.value.time
    ensures r.Some? ==> r.value.confidence == estimate.value.confidence
    ensures r.Some? ==> |r.value.frequency| == |estimate.value.frequency|
    ensures r.Some? ==> forall i :: 0 <= i < |r.value.frequency| ==>
      r.value.frequency[i] == if estimate.value.confidence[i] < ConfidenceThreshold then 0.0 else estimate.value.frequency[i]
    ensures r.Some? ==> r.value.frequency == GatedFrequency(estimate.value.frequency, estimate.value.confidence)
  {
    if estimate.None? {
      return None;
    }
    var raw := estimate.value;
    if |raw.confidence| != |raw.frequency| {
      return None;
    }
    var frequency := new real[|raw.frequency|](i requires 0 <= i < |raw.frequency| => raw.frequency[i]);
    assert frequency[..] == raw.frequency;
    GateLowConfidence(frequency, raw.confidence);
    r := Some(PitchTrack(raw.time, frequency[..], raw.confidence));
  }

  // ---------------------------------------------------------------------------
  // Segmentation: the specification

  /** Python's `zip(time, frequency, confidence)`, which stops at the shortest array. */
  function Frames(track: PitchTrack): seq<Frame>
  {
    var n := if |track.time| <= |track.frequency| && |track.time| <= |track.confidence| then |track.time|
             else if |track.frequency| <= |track.confidence| then |track.frequency|
             else |track.confidence|;
    seq(n, i requires 0 <= i < n => Frame(track.time[i], track.frequency[i], track.confidence[i]))
  }

  /** The note slot: no open note, or exactly one. */
  datatype Slot = Idle | Open(note: Note)

  function Abs(x: real): real {
    if x < 0.0 then -x else x
  }

  /** The name a frame carries, `None` for an unvoiced or too-low frame. */
  function NameOf(frame: Frame, semitone: SemitoneIndex): Option<string>
  {
    if frame.frequency > 0.0 then FrequencyToNoteName(frame.frequency, semitone) else None
  }

  predicate LongEnough(n: Note) {
    n.endTime - n.startTime >= MinDuration
  }

  /** What closing note `n` emits: the note itself if it lasted long enough, else nothing. */
  function Keep(n: Note): seq<Note> {
    if LongEnough(n) then [n] else []
  }

  /** The emission of closing whatever the slot holds. */
  function Close(slot: Slot): seq<Note> {
    if slot.Open? then Keep(slot.note) else []
  }

  /** One iteration of the segmenter loop: the new slot and the notes emitted. */
  function Step(slot: Slot, frame: Frame, semitone: SemitoneIndex): (Slot, seq<Note>)
  {
    match NameOf(frame, semitone)
    case None => (Idle, Close(slot))
    case Some(name) =>
      var started := Note(frame.time, frame.time, name, frame.frequency);
      if slot.Idle? then (Open(started), [])
      else if Abs(frame.frequency - slot.note.frequency) < NoteThreshold then
        (Open(slot.note.(endTime := frame.time)), [])
      else (Open(started), Keep(slot.note))
  }

  /** The slot and the notes emitted after the loop has consumed `frames`. */
  function Scan(frames: seq<Frame>, semitone: SemitoneIndex): (Slot, seq<Note>)
    decreases |frames|
  {
    if frames == [] then (Idle, [])
    else
      var before := Scan(frames[..|frames| - 1], semitone);
      var after := Step(before.0, frames[|frames| - 1], semitone);
      (after.0, before.1 + after.1)
  }

  /** The note list the segmenter returns for `frames`: the loop, then the end-of-stream flush. */
  function Segment(frames: seq<Frame>, semitone: SemitoneIndex): seq<Note>
  {
    var final := Scan(frames, semitone);
    final.1 + Close(final.0)
  }

  // ---------------------------------------------------------------------------
  // Segmentation: the loop

  /**
   * `process_whistle_audio` from the estimator's output on: `None` exactly
   * when extraction failed, otherwise the notes `Segment` assigns to the
   * gated frames.
   */
  method ProcessWhistleAudio(estimate: Option<PitchTrack>, semitone: SemitoneIndex) returns (notes: Option<seq<Note>>)
    ensures notes.None? <==> estimate.None? || |estimate.value.confidence| != |estimate.value.frequency|
    ensures notes.Some? ==>
      var raw := estimate.value;
      notes.value == Segment(Frames(PitchTrack(raw.time, GatedFrequency(raw.frequency, raw.confidence), raw.confidence)), semitone)
  {
    var extracted := ExtractPitchFromAudio(estimate);
    if extracted.None? {
      return None;
    }
    var frames := Frames(extracted.value);
    var found: seq<Note> := [];
    var current: Slot := Idle;
    for i := 0 to |frames|
      invariant (current, found) == Scan(frames[..i], semitone)
    {
      assert frames[..i + 1][..i] == frames[..i];
      ghost var step := Step(current, frames[i], semitone);
      ghost var before := found;
      assert Scan(frames[..i + 1], semitone) == (step.0, found + step.1);
      var t, f := frames[i].time, frames[i].frequency;
      var noteName := if f > 0.0 then FrequencyToNoteName(f, semitone) else None;
      assert noteName == NameOf(frames[i], semitone);
      if current.Idle? && noteName.Some? {
        assert step == (Open(Note(t, t, noteName.value, f)), []);
        current := Open(Note(t, t, noteName.value, f));
      } else if current.Open? && noteName.Some? {
        if Abs(f - current.note.frequency) < NoteThreshold {
          assert step == (Open(current.note.(endTime := t)), []);
          current := Open(current.note.(endTime := t));
        } else {
          assert step == (Open(Note(t, t, noteName.value, f)), Keep(current.note));
          if current.note.endTime - current.note.startTime >= MinDuration {
            found := found + [current.note];
          }
          current := Open(Note(t, t, noteName.value, f));
        }
      } else if current.Open? && noteName.None? {
        assert step == (Idle, Keep(current.note));
        if current.note.endTime - current.note.startTime >= MinDuration {
          found := found + [current.note];
        }
        current := Idle;
      } else {
        assert step == (current, []);
      }
      assert current == step.0 && found == before + step.1;
    }
    assert frames[..|frames|] == frames;
    if current.Open? && current.note.endTime - current.note.startTime >= MinDuration {
      found := found + [current.note];
    }
    notes := Some(found);
  }
}
