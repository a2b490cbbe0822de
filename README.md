# Sape: whistle segmentation and note rendering in Dafny

Sape turns a whistled melody or a drawing into music. This project models
the two Python files that hold its logic and proves what they promise.

- `audio_processing.py`. The pitch estimator's per-frame output
  `(time, frequency, confidence)` goes through a confidence gate that zeroes
  every frequency whose confidence is below 0.5. A segmenter then scans the
  frames with a single "current note" slot. A note opens on a named frame.
  A named frame strictly within 50 Hz of the note's anchor frequency extends
  it. A frame 50 Hz or more away, or an unnamed frame, closes it. A closed
  note is kept only if it lasted at least 0.1 s. A frequency is named
  `note_names[h % 12] + str(h // 12)`, where `h` is its semitone index
  above C0.
- `midi_utils.py`. Three list builders:
  - the MIDI event list for the detected notes: velocity 100, one piano
    instrument;
  - the staff layout of the sheet-music preview: note `i` goes in column
    `i`, at the height of its first letter;
  - the canvas-to-MIDI mapper: every drawn pixel becomes a quarter-second
    note whose pitch depends on its row.

Modules, one file each:

- `Wrappers` (`wrappers.dfy`): `Option`, standing for Python's `None`/`False` results.
- `Decimal` (`decimal.dfy`): Python's `str()` of an integer and a parser
  that reads it back.
- `AudioProcessing` (`audio_processing.dfy`): note naming, the confidence
  gate (an in-place array update), the segmenter's specification
  (`Step`, `Scan`, `Segment`) and the segmenter loop `ProcessWhistleAudio`,
  proved equal to that specification.
- `SegmentationProperties` (`segmentation_properties.dfy`): what the
  segmenter guarantees. Notes are never shorter than 0.1 s. Silence gives no
  notes. Each note is anchored at the frame that opened it. Notes of a
  time-ordered stream are disjoint and ordered. Low-confidence frames count
  as silence. Four concrete scenarios are worked out.
- `MidiUtils` (`midi_utils.dfy`): the three builders as loops, each proved
  against a specification function. Lemmas cover membership, order, axis
  limits, pitch range and an integer formula for the canvas pitch.

Two functions in the source call code that is not modelled, so they become
parameters:

- `round(12 * log2(f / C0))` becomes `semitone: real -> int`. Every result
  holds for any such function.
- `pretty_midi.note_name_to_number` becomes `noteNumber: string -> Option<int>`,
  where `None` means it raised.

## Model

| member | source | states |
|---|---|---|
| Decimal.IntToString | audio_processing.py:38-41 | Python's `str()` of the octave: at least one character, a leading `-` exactly for negative values, digits otherwise |
| Decimal.ParseNatToString | audio_processing.py:41 | the decimal digits of a natural number read back to that number |
| Decimal.ParseIntToString | audio_processing.py:38-41 | `str(octave)` reads back to the octave, negative octaves included, so the octave part of a name is recoverable |
| AudioProcessing.PitchClassOfName | audio_processing.py:39-41 | each of the twelve pitch-class names reads back to its own index `h % 12`; a name has one or two characters, the second is `#`, the first is one of C D E F G A B |
| AudioProcessing.ParseNoteNameOf | audio_processing.py:38-41 | a pitch-class name followed by a rendered octave reads back as `12 * octave + pitch class` |
| AudioProcessing.PitchNameRoundTrip | audio_processing.py:37-41 | the name built from semitone index `h` reads back to exactly `h`, so distinct semitones get distinct names |
| AudioProcessing.FrequencyToNoteName | audio_processing.py:28-42 | a name exists exactly when the frequency is above C0: `None` for every `f <= 0` and for `0 < f <= C0`; a name has at least two characters and starts with a natural letter |
| AudioProcessing.NoteNameNamesSemitone | audio_processing.py:36-41 | a returned name reads back to `semitone(f)`: pitch class `h % 12` and octave `h // 12` |
| AudioProcessing.GateLowConfidence | audio_processing.py:19 | the masked assignment updates the array in place: zero where confidence is below 0.5, unchanged elsewhere |
| AudioProcessing.ExtractPitchFromAudio | audio_processing.py:4-26 | `None` exactly when the estimator failed or the confidence mask does not fit the frequency array; otherwise times and confidences are unchanged, the frame count is kept and each frequency is gated |
| AudioProcessing.ProcessWhistleAudio | audio_processing.py:44-94 | `None` exactly when extraction failed, which is distinct from the empty list; otherwise the loop's note list equals `Segment` of the gated, zipped frames |
| SegmentationProperties.ScanKeepsLongNotes | audio_processing.py:73-86 | every note emitted inside the loop, at a split or at an unnamed frame, lasts at least 0.1 s |
| SegmentationProperties.SegmentMinDuration | audio_processing.py:73-89 | every returned note, including the one flushed at the end of the stream, has `end_time - start_time >= 0.1` and `start_time < end_time` |
| SegmentationProperties.ScanOfSilence | audio_processing.py:58-86 | a stream with no frame above C0 leaves the slot empty and emits nothing |
| SegmentationProperties.SegmentOfSilence | audio_processing.py:28-91 | a stream with no named frame, whether zero, negative or at or below C0, yields `[]` |
| SegmentationProperties.OpenNoteTransitions | audio_processing.py:69-86 | for an open note: an unnamed frame closes it; a named frame strictly within 50 Hz only moves `end_time` to the frame's time; a named frame 50 Hz or more away closes it and opens a new note at the frame |
| SegmentationProperties.StepCases | audio_processing.py:58-86 | one iteration emits a note only when it closes the open note on a frame that does not extend it; the slot afterwards is that note extended to the frame, or a note opened at the frame with the frame's name and frequency |
| SegmentationProperties.ScanAnchored | audio_processing.py:58-86 | after any number of frames, the open note and every emitted note each span a run of frames that the note was opened and extended by |
| SegmentationProperties.SegmentAnchored | audio_processing.py:61-89 | every returned note spans frames `i..j`: its name and anchor frequency are those of frame `i`, its start and end are the times of frames `i` and `j`, every frame between stayed strictly within 50 Hz, and frame `j + 1`, if any, did not extend it |
| SegmentationProperties.ScanOrdered | audio_processing.py:58-86 | for strictly increasing frame times, the emitted notes stay disjoint and end before the open note starts, and the open note ends at the latest frame |
| SegmentationProperties.SegmentOrdered | audio_processing.py:53-89 | for strictly increasing frame times, each returned note ends strictly before the next starts, so start times strictly increase |
| SegmentationProperties.LowConfidenceIsSilence | audio_processing.py:19 | two estimator outputs that differ only in the frequencies of low-confidence frames give the same notes |
| SegmentationProperties.GatedFrameIsUnnamed | audio_processing.py:19 | after the gate, a frame with confidence below 0.5 has frequency 0 and no note name |
| SegmentationProperties.SteadyEighthAt440 | audio_processing.py:61-72 | two 440 Hz frames open one note, whose end time follows the second frame |
| SegmentationProperties.SplitAtExactlyFiftyHertz | audio_processing.py:71-82 | a jump of exactly 50 Hz splits a stream into two notes |
| SegmentationProperties.MergeBelowFiftyHertz | audio_processing.py:71-72 | a jump of 49.9 Hz keeps a single note, anchored at the first frequency |
| SegmentationProperties.ShortSpikeIsDropped | audio_processing.py:83-86 | a 0.04 s burst between unvoiced frames gives no note |
| MidiUtils.PlayableNotesAppend | midi_utils.py:53-54 | the note filter distributes over concatenation, so input order is kept |
| MidiUtils.PlayableNotesMembers | midi_utils.py:53-54 | the notes kept are exactly those with a non-empty name and a positive frequency |
| MidiUtils.CreateMidiFromNotes | midi_utils.py:45-72 | `None` (the source's `False`) exactly when some kept note's name cannot be converted; otherwise one program-0 instrument with one event per kept note, in input order, each at velocity 100 with start and end copied from the note |
| MidiUtils.CreateSheetMusicFromNotes | midi_utils.py:6-30 | the loop's marks are the specification's marks, and it sets staff lines 0 to 4, x-limits `[-0.5, len + 0.5]` and y-limits `[-0.5, 4.5]` |
| MidiUtils.MarksExact | midi_utils.py:17-27 | the marks are exactly the notes with a name whose first letter is in the table; each is at `x = i`, its index among all notes, skipped ones included, and at the height of its first letter, so "C#4" sits with "C4" |
| MidiUtils.MarksOrdered | midi_utils.py:19-27 | mark columns strictly increase and lie in `[0, len)` |
| MidiUtils.NotePositionsOnStaff | midi_utils.py:17 | the seven letter heights lie between 0 and 3 |
| MidiUtils.MarksInsideLimits | midi_utils.py:17-30 | every mark and the label 0.3 above it lie inside the axis limits |
| MidiUtils.SegmentedNamesArePlotted | midi_utils.py:21-23 | every name the segmenter gives a note is plotted, since every name starts with a natural letter |
| MidiUtils.PixelNotes | midi_utils.py:106-121 | one note per pixel, in the same order |
| MidiUtils.ColumnPixels | midi_utils.py:101-104 | the drawn pixels of a column all lie in that column and above the row bound |
| MidiUtils.DrawnPixels | midi_utils.py:100-104 | the drawn pixels of the first columns lie inside those columns and the canvas |
| MidiUtils.ScanColumn | midi_utils.py:101-121 | walking one column yields exactly the notes of that column's drawn pixels, top to bottom |
| MidiUtils.PixelNotesAppend | midi_utils.py:100-121 | the notes of two runs of pixels scanned one after the other are the first run's notes followed by the second's, so appending column after column gives the whole canvas's notes |
| MidiUtils.CanvasToMidi | midi_utils.py:74-128 | `None` (the source's `False`) exactly when the canvas or its image data is missing; otherwise one program-0 instrument holding the note of every drawn pixel in column-then-row order |
| MidiUtils.ColumnPixelsExact | midi_utils.py:101-104 | a column's drawn pixels are exactly its rows with a value below 200 |
| MidiUtils.DrawnPixelsExact | midi_utils.py:100-106 | the pixels that get a note are exactly those with a value below 200 |
| MidiUtils.ColumnPixelsOrdered | midi_utils.py:104-106 | within a column, pixels are visited top to bottom, each once |
| MidiUtils.DrawnPixelsOrdered | midi_utils.py:100-106 | pixels are visited column by column, top to bottom within a column, each once |
| MidiUtils.RowPitchUnclamped | midi_utils.py:97-109 | the unclamped pitch of any row already lies in [60, 84], so the clamp never changes it |
| MidiUtils.RowPitchInIntegers | midi_utils.py:108-109 | the pitch of row `y` equals `84 - ceil(24 * y / height)`, computed in integers |
| MidiUtils.TopRowIsHighest | midi_utils.py:108 | row 0 maps to pitch 84 |
| MidiUtils.RowPitchNonIncreasing | midi_utils.py:108-109 | pitch never rises as the row index grows |
| MidiUtils.CanvasNotes | midi_utils.py:96-121 | every canvas note has velocity 100, a pitch in [60, 84], start `x * 0.25` for its column `x`, and end `start + 0.25` |
| MidiUtils.CanvasNotesInTimeOrder | midi_utils.py:100-113 | start times never decrease along the canvas notes |

## Left out

- The pitch estimator (CREPE) and resampling (librosa) at `audio_processing.py:7-17` are foreign code. Their output is the input `estimate`. Any exception they raise is `estimate = None`.
- The floating-point step `round(12 * log2(f / C0))` becomes the parameter `semitone`. The model does not fix its values, so the name proofs hold for every such function, including ones that return a negative index.
- Times and frequencies are exact reals, not doubles. In doubles, a duration such as `0.3 - 0.2` falls just below 0.1 and the note is dropped; with reals it is kept. The scenario lemmas use times exact in binary (multiples of 1/8 s), so their results hold in doubles too. NaN frequencies are not modelled.
- C0 is the decimal `16.351597831287414`, the value the source computes as `440 * 2**-4.75` in doubles.
- A note name of `None` and an empty name are both the empty string: the source only tests their truthiness.
- SegmentationProperties.SegmentOrdered: this lemma requires strictly increasing frame times. The estimator always produces those. For arbitrary times the source itself does not order its notes.
- Deterministic output is not stated as a lemma: `Segment` is a function, so equal inputs give equal notes by definition.
- MidiUtils.CreateMidiFromNotes: file writing (`midi.write`, `midi_utils.py:68`) is not modelled. A write failure, which makes the source return `False`, is outside this model, and `Some` stands for the object that would be written.
- `pretty_midi.note_name_to_number` becomes the parameter `noteNumber`. Reading the written MIDI file back is outside this model, since the file format belongs to pretty_midi.
- `midi.synthesize` and `midi_to_audio` (`midi_utils.py:130-142`) are library calls and are not modelled.
- MidiUtils.CreateSheetMusicFromNotes: the matplotlib drawing, the title and the PNG encoding (`midi_utils.py:8-14`, `31-40`) are left out. The layout value is what would be drawn. The `None` returned when matplotlib raises is not modelled.
- MidiUtils.CanvasToMidi: the RGB-to-gray `np.mean` (`midi_utils.py:86-87`) is float code. The image data is taken as a 2-D grid of gray values that is already converted. The `False` returned when writing the file fails is not modelled.
- The canvas column loop is the method `ScanColumn`, which `CanvasToMidi` calls once per column, appending its notes to the event list. The source selects the drawn rows with `np.where` and then loops over them. The model loops over every row and tests each one, which visits the same pixels in the same order.
- `st.error` reports in the except branches are side effects. Only the `None`/`False` result is modelled.
- `app.py`, `audio_to_midi.py`, `draw_to_music.py` and `whistle_to_sheet.py` are user interface and orchestration code. `image_to_musicxml.py` runs an external program and reads the file system. None of them is part of this model.
