/** The word-to-note sequencer of music_generator.py.

    A `MusicGenerator` owns its tables and one MIDI track for its whole
    life: the tempo event is written once when the generator is built, and
    every call of `generate_music` appends one note per word to the same
    track, counting beats from 0 again on each call.  Here the generator is
    an explicit value (`Generator`) that each call takes and gives back.

    `random.choice` becomes an oracle: the caller supplies, for each word
    position, an index into the scale's note list, read modulo its length.
    Every note of the scale can be chosen this way (MapWordToNoteCoversScale),
    and no other note can. */
module Music {
  import opened Wrappers
  import opened Config
  import opened Text
  import opened Utils

  /** The named scales the constructor installs, as lists of MIDI pitches. */
  const Scales: map<string, seq<nat>> := map[
    "C_major" := [60, 62, 64, 65, 67, 69, 71],
    "A_minor" := [57, 59, 60, 62, 64, 65, 67],
    "pentatonic" := [60, 62, 64, 67, 69]
  ]

  /** The word-to-pitch table the constructor installs; keys are upper case. */
  const NoteTable: map<string, nat> := map[
    "DO" := 60, "RE" := 62, "MI" := 64, "FA" := 65,
    "SOL" := 67, "LA" := 69, "SI" := 71,
    "C" := 60, "D" := 62, "E" := 64, "F" := 65,
    "G" := 67, "A" := 69, "B" := 71,
    "HAPPY" := 67, "SAD" := 60, "BRIGHT" := 69,
    "DARK" := 62, "SOFT" := 64, "LOUD" := 71
  ]

  /** The lowest and highest pitch appearing in the tables. */
  const LowestPitch: nat := 57
  const HighestPitch: nat := 71

  /** A `midi.addNote(track, channel, pitch, time, duration, volume)` call,
      recorded in the order it was made. */
  datatype NoteEvent = NoteEvent(track: nat, channel: nat, pitch: nat, time: nat, duration: nat, volume: nat)

  /** A `midi.addTempo(track, time, tempo)` call. */
  datatype TempoEvent = TempoEvent(track: nat, time: nat, tempo: nat)

  /** A `MusicGenerator`: its `scales` and `note_mapping` attributes, and
      its one-track MIDI object as the events added to it. */
  datatype Generator = Generator(
    scales: map<string, seq<nat>>,
    noteMapping: map<string, nat>,
    tempos: seq<TempoEvent>,
    notes: seq<NoteEvent>)

  /** The exceptions `map_word_to_note` can raise: `KeyError` on an unknown
      scale name, and `IndexError` when `random.choice` is handed an empty
      note list (which the constructor's tables never are). */
  datatype MusicError = KeyError(key: string) | IndexError

  /** What a call of `generate_music` leaves: the generator after the call,
      and the returned path or the raised error. */
  datatype Call = Call(gen: Generator, result: Result<string, MusicError>)

  /** `MusicGenerator()`: the fixed tables, and a track holding only the
      tempo on track 0 at time 0. */
  function NewGenerator(): Generator {
    Generator(Scales, NoteTable, [TempoEvent(0, 0, TEMPO)], [])
  }

  /** The note `generate_music` adds for a word at beat `time`. */
  function NoteAt(pitch: nat, time: nat): NoteEvent {
    NoteEvent(0, 0, pitch, time, 1, VELOCITY)
  }

  /** `word` (after upper-casing) has an entry in the generator's table. */
  predicate Mapped(g: Generator, word: string) {
    Upper(word) in g.noteMapping
  }

  /** `random.choice(self.scales[scale])` can succeed. */
  predicate ScaleUsable(g: Generator, scale: string) {
    scale in g.scales && |g.scales[scale]| > 0
  }

  /** The pitches `map_word_to_note(word, scale)` may return: the table's
      pitch for a word in the table (after upper-casing), otherwise any
      note of the named scale. */
  predicate Allowed(g: Generator, word: string, scale: string, pitch: nat) {
    if Mapped(g, word) then pitch == g.noteMapping[Upper(word)]
    else scale in g.scales && pitch in g.scales[scale]
  }

  /** The error raised for an unmapped word with an unusable scale. */
  function ScaleError(g: Generator, scale: string): MusicError {
    if scale in g.scales then IndexError else KeyError(scale)
  }

  /** `self.map_word_to_note(word, scale)`, with `choice` standing for the
      random index and `scale` defaulting to C major.  The scale name is
      looked up only when the word is not in the table, so an unknown scale
      fails only for such words. */
  function MapWordToNote(g: Generator, word: string, scale: string := "C_major", choice: nat): (r: Result<nat, MusicError>)
    ensures r.Success? <==> Mapped(g, word) || ScaleUsable(g, scale)
    ensures r.Success? ==> Allowed(g, word, scale, r.value)
    ensures r.Failure? ==> r.error == ScaleError(g, scale)
  {
    var key := Upper(word);
    if key in g.noteMapping then Success(g.noteMapping[key])
    else if scale !in g.scales then Failure(KeyError(scale))
    else
      var notes := g.scales[scale];
      if |notes| == 0 then Failure(IndexError)
      else Success(notes[choice % |notes|])
  }

  /** A word whose upper-cased form is in the table maps to that entry,
      however it is cased and whatever scale or random index is used. */
  lemma MapWordToNoteIgnoresCase(g: Generator, word: string, other: string, scale: string, choice: nat)
    requires Mapped(g, word)
    requires Upper(other) == Upper(word)
    ensures MapWordToNote(g, other, scale, choice) == Success(g.noteMapping[Upper(word)])
  {
  }

  /** For a word not in the table, every note of a known scale is a
      possible result: the oracle does not narrow `random.choice`. */
  lemma MapWordToNoteCoversScale(g: Generator, word: string, scale: string, pitch: nat)
    requires !Mapped(g, word)
    requires scale in g.scales && pitch in g.scales[scale]
    ensures exists choice: nat :: MapWordToNote(g, word, scale, choice) == Success(pitch)
  {
    var notes := g.scales[scale];
    var i :| 0 <= i < |notes| && notes[i] == pitch;
    assert i % |notes| == i;
    assert MapWordToNote(g, word, scale, i) == Success(pitch);
  }

  /** The constructor's tables: every pitch in them lies between 57 (A3) and
      71 (B4), and no scale is empty. */
  predicate TablesInRange(g: Generator) {
    && (forall w | w in g.noteMapping :: LowestPitch <= g.noteMapping[w] <= HighestPitch)
    && (forall s | s in g.scales ::
          |g.scales[s]| > 0 && forall i | 0 <= i < |g.scales[s]| :: LowestPitch <= g.scales[s][i] <= HighestPitch)
  }

  /** Every pitch of the word table lies between 57 and 71. */
  lemma NoteTableInRange()
    ensures forall w | w in NoteTable :: LowestPitch <= NoteTable[w] <= HighestPitch
    ensures "DO" in NoteTable
  {
  }

  /** Every scale is non-empty and its pitches lie between 57 and 71. */
  lemma ScalesInRange()
    ensures forall s | s in Scales ::
      |Scales[s]| > 0 && forall i | 0 <= i < |Scales[s]| :: LowestPitch <= Scales[s][i] <= HighestPitch
    ensures "C_major" in Scales
  {
  }

  /** The constructor's tables satisfy TablesInRange. */
  lemma NewGeneratorTablesInRange()
    ensures TablesInRange(NewGenerator())
    ensures "C_major" in NewGenerator().scales && "DO" in NewGenerator().noteMapping
  {
    NoteTableInRange();
    ScalesInRange();
  }

  /** With the constructor's tables, whatever `map_word_to_note` returns is
      between 57 and 71, and a known scale name never fails. */
  lemma MapWordToNoteInRange(g: Generator, word: string, scale: string, choice: nat)
    requires TablesInRange(g)
    ensures MapWordToNote(g, word, scale, choice).Success? <==> Mapped(g, word) || scale in g.scales
    ensures MapWordToNote(g, word, scale, choice).Success? ==>
      LowestPitch <= MapWordToNote(g, word, scale, choice).value <= HighestPitch
  {
  }

  /** The notes added for `words` by the loop of `generate_music`, the
      first of them at beat `time`, and the error that stopped the loop, if
      any.  Notes added before the error stay on the track. */
  datatype Sequenced = Sequenced(notes: seq<NoteEvent>, error: Option<MusicError>)

  /** The loop body of `generate_music`, applied to each word in turn.
      `oracle(t)` is the random index used for the word at beat `t`. */
  function SequenceWords(g: Generator, words: seq<string>, scale: string, oracle: nat -> nat, time: nat): Sequenced
    decreases |words|
  {
    if words == [] then Sequenced([], None)
    else
      match MapWordToNote(g, words[0], scale, oracle(time))
      case Failure(e) => Sequenced([], Some(e))
      case Success(pitch) =>
        var rest := SequenceWords(g, words[1..], scale, oracle, time + 1);
        Sequenced([NoteAt(pitch, time)] + rest.notes, rest.error)
  }

  /** The loop adds one note per word, the k-th at beat `time + k` with a
      pitch `map_word_to_note` may give the k-th word, until it reaches the
      first word outside the table while the scale cannot be used; there it
      stops with that scale's error. */
  lemma {:induction false} SequenceWordsSpec(g: Generator, words: seq<string>, scale: string, oracle: nat -> nat, time: nat)
    ensures var r := SequenceWords(g, words, scale, oracle, time);
      && |r.notes| <= |words|
      && (r.error.None? ==> |r.notes| == |words|)
      && (r.error.Some? ==>
            && |r.notes| < |words|
            && r.error.value == ScaleError(g, scale)
            && !ScaleUsable(g, scale)
            && !Mapped(g, words[|r.notes|]))
      && forall k | 0 <= k < |r.notes| ::
           r.notes[k] == NoteAt(r.notes[k].pitch, time + k) && Allowed(g, words[k], scale, r.notes[k].pitch)
    decreases |words|
  {
    if words != [] {
      var r := SequenceWords(g, words, scale, oracle, time);
      var m := MapWordToNote(g, words[0], scale, oracle(time));
      if m.Success? {
        var rest := SequenceWords(g, words[1..], scale, oracle, time + 1);
        SequenceWordsSpec(g, words[1..], scale, oracle, time + 1);
        assert r.notes == [NoteAt(m.value, time)] + rest.notes;
        forall k | 1 <= k < |r.notes|
          ensures r.notes[k] == NoteAt(r.notes[k].pitch, time + k) && Allowed(g, words[k], scale, r.notes[k].pitch)
        {
          assert r.notes[k] == rest.notes[k - 1];
          assert words[k] == words[1..][k - 1];
        }
        if r.error.Some? {
          assert words[|r.notes|] == words[1..][|rest.notes|];
        }
      }
    }
  }

  /** The path `generate_music` returns: `music_<timestamp>.mid` inside
      the MIDI directory. */
  function MidiPath(now: DateTime): string
    requires ValidDateTime(now)
  {
    MIDI_DIR + "/" + GenerateFilename("music", "mid", now)
  }

  /** `generator.generate_music(text, scale)` at instant `now`, the scale
      defaulting to C major: split the text into words and add, for the k-th
      word, its note at beat k for one beat at velocity VELOCITY on track 0,
      channel 0.  A word the table does not know, with a scale that cannot
      be used, raises part way, after the notes of the earlier words were
      added. */
  function GenerateMusic(g: Generator, text: string, scale: string := "C_major", oracle: nat -> nat, now: DateTime): Call
    requires ValidDateTime(now)
  {
    var s := SequenceWords(g, Words(text), scale, oracle, 0);
    var g' := g.(notes := g.notes + s.notes);
    match s.error
    case Some(e) => Call(g', Failure(e))
    case None => Call(g', Success(MidiPath(now)))
  }

  /** A call of `generate_music` leaves the tables and the tempo event
      alone and keeps every earlier note in place; it adds at most one note
      per word. */
  lemma GenerateMusicFrame(g: Generator, text: string, scale: string, oracle: nat -> nat, now: DateTime)
    requires ValidDateTime(now)
    ensures var c := GenerateMusic(g, text, scale, oracle, now);
      && c.gen.scales == g.scales && c.gen.noteMapping == g.noteMapping
      && c.gen.tempos == g.tempos
      && |g.notes| <= |c.gen.notes| <= |g.notes| + |Words(text)|
      && c.gen.notes[..|g.notes|] == g.notes
  {
    SequenceWordsSpec(g, Words(text), scale, oracle, 0);
    var s := SequenceWords(g, Words(text), scale, oracle, 0);
    assert (g.notes + s.notes)[..|g.notes|] == g.notes;
  }

  /** A call of `generate_music` succeeds exactly when the scale is usable
      or every word is in the table, and then adds one note per word and
      returns the MIDI path; a failing call raises the scale's error at the
      first word outside the table, after adding the notes before it. */
  lemma GenerateMusicOutcome(g: Generator, text: string, scale: string, oracle: nat -> nat, now: DateTime)
    requires ValidDateTime(now)
    ensures var c := GenerateMusic(g, text, scale, oracle, now);
      && (c.result.Success? <==>
            (ScaleUsable(g, scale) || forall k | 0 <= k < |Words(text)| :: Mapped(g, Words(text)[k])))
      && (c.result.Success? ==>
            |c.gen.notes| == |g.notes| + |Words(text)| && c.result.value == MidiPath(now))
      && (c.result.Failure? ==>
            && |g.notes| <= |c.gen.notes| < |g.notes| + |Words(text)|
            && c.result.error == ScaleError(g, scale)
            && !Mapped(g, Words(text)[|c.gen.notes| - |g.notes|])
            && forall k | 0 <= k < |c.gen.notes| - |g.notes| :: Mapped(g, Words(text)[k]))
  {
    SequenceWordsSpec(g, Words(text), scale, oracle, 0);
    var s := SequenceWords(g, Words(text), scale, oracle, 0);
    if s.error.None? && !ScaleUsable(g, scale) {
      forall k | 0 <= k < |Words(text)| ensures Mapped(g, Words(text)[k]) {
        assert Allowed(g, Words(text)[k], scale, s.notes[k].pitch);
      }
    } else if s.error.Some? {
      assert !Mapped(g, Words(text)[|s.notes|]);
      forall k | 0 <= k < |s.notes| ensures Mapped(g, Words(text)[k]) {
        assert Allowed(g, Words(text)[k], scale, s.notes[k].pitch);
      }
    }
  }

  /** The k-th note a call of `generate_music` adds is at beat k, one beat
      long, at velocity VELOCITY on track 0 and channel 0, with a pitch
      `map_word_to_note` may give the k-th word. */
  lemma GenerateMusicNotes(g: Generator, text: string, scale: string, oracle: nat -> nat, now: DateTime, k: nat)
    requires ValidDateTime(now)
    requires |g.notes| + k < |GenerateMusic(g, text, scale, oracle, now).gen.notes|
    ensures k < |Words(text)|
    ensures var n := GenerateMusic(g, text, scale, oracle, now).gen.notes[|g.notes| + k];
      n == NoteAt(n.pitch, k) && Allowed(g, Words(text)[k], scale, n.pitch)
  {
    SequenceWordsSpec(g, Words(text), scale, oracle, 0);
    var s := SequenceWords(g, Words(text), scale, oracle, 0);
    assert GenerateMusic(g, text, scale, oracle, now).gen.notes[|g.notes| + k] == s.notes[k];
  }

  /** `g'` is `g` with notes added for a prefix of `words` under `scale`:
      the tables are the same, the earlier notes stay in front, and the
      k-th added note is at beat k with a pitch allowed for the k-th word. */
  predicate AddsNotesFor(g: Generator, g': Generator, words: seq<string>, scale: string) {
    && g'.scales == g.scales && g'.noteMapping == g.noteMapping
    && |g.notes| <= |g'.notes| <= |g.notes| + |words|
    && g'.notes[..|g.notes|] == g.notes
    && forall k | |g.notes| <= k < |g'.notes| ::
         g'.notes[k] == NoteAt(g'.notes[k].pitch, k - |g.notes|)
         && Allowed(g, words[k - |g.notes|], scale, g'.notes[k].pitch)
  }

  /** Every call of `generate_music` adds notes for a prefix of its words. */
  lemma GenerateMusicAddsNotes(g: Generator, text: string, scale: string, oracle: nat -> nat, now: DateTime)
    requires ValidDateTime(now)
    ensures AddsNotesFor(g, GenerateMusic(g, text, scale, oracle, now).gen, Words(text), scale)
  {
    var c := GenerateMusic(g, text, scale, oracle, now);
    GenerateMusicFrame(g, text, scale, oracle, now);
    forall k | |g.notes| <= k < |c.gen.notes|
      ensures c.gen.notes[k] == NoteAt(c.gen.notes[k].pitch, k - |g.notes|)
      ensures Allowed(g, Words(text)[k - |g.notes|], scale, c.gen.notes[k].pitch)
    {
      GenerateMusicNotes(g, text, scale, oracle, now, k - |g.notes|);
    }
  }

  /** One turn of the loop: if the words before `time` produced `added`,
      then the word at `time` either ends the loop with an error or extends
      `added` by its note. */
  lemma SequenceWordsStep(g: Generator, words: seq<string>, scale: string, oracle: nat -> nat,
                          time: nat, added: seq<NoteEvent>, whole: Sequenced)
    requires time < |words|
    requires whole.notes == added + SequenceWords(g, words[time..], scale, oracle, time).notes
    requires whole.error == SequenceWords(g, words[time..], scale, oracle, time).error
    ensures match MapWordToNote(g, words[time], scale, oracle(time))
      case Failure(e) => whole == Sequenced(added, Some(e))
      case Success(pitch) =>
        var rest := SequenceWords(g, words[time + 1..], scale, oracle, time + 1);
        whole.notes == (added + [NoteAt(pitch, time)]) + rest.notes && whole.error == rest.error
  {
  }

  /** The loop of `generate_music` as the program writes it: a running beat
      counter starting at 0 and one `addNote` per word.  It adds exactly
      the notes the recursive definition describes and stops at the same
      error. */
  method GenerateMusicLoop(g: Generator, text: string, scale: string, oracle: nat -> nat, now: DateTime)
    returns (gen: Generator, result: Result<string, MusicError>)
    requires ValidDateTime(now)
    ensures Call(gen, result) == GenerateMusic(g, text, scale, oracle, now)
  {
    var words := Words(text);
    ghost var whole := SequenceWords(g, words, scale, oracle, 0);
    var time: nat := 0;
    var added: seq<NoteEvent> := [];
    assert words[0..] == words;
    while time < |words|
      invariant time <= |words|
      invariant whole.notes == added + SequenceWords(g, words[time..], scale, oracle, time).notes
      invariant whole.error == SequenceWords(g, words[time..], scale, oracle, time).error
    {
      var note := MapWordToNote(g, words[time], scale, oracle(time));
      SequenceWordsStep(g, words, scale, oracle, time, added, whole);
      if note.Failure? {
        return g.(notes := g.notes + added), Failure(note.error);
      }
      added := added + [NoteAt(note.value, time)];
      time := time + 1;
    }
    assert words[time..] == [];
    gen := g.(notes := g.notes + added);
    result := Success(MidiPath(now));
  }

  /** Every event on the track is one a generator can have written: the
      single tempo event of the constructor, and notes on track 0, channel
      0, one beat long, at velocity VELOCITY, with a pitch between 57 and
      71, the range of the constructor's tables. */
  predicate ValidTrack(g: Generator) {
    && TablesInRange(g)
    && g.tempos == [TempoEvent(0, 0, TEMPO)]
    && forall k | 0 <= k < |g.notes| ::
         && g.notes[k] == NoteAt(g.notes[k].pitch, g.notes[k].time)
         && LowestPitch <= g.notes[k].pitch <= HighestPitch
  }

  /** A new generator is valid and has no notes. */
  lemma NewGeneratorValid()
    ensures ValidTrack(NewGenerator())
    ensures NewGenerator().notes == []
  {
    NewGeneratorTablesInRange();
  }

  /** A call of `generate_music`, successful or not, keeps the track valid. */
  lemma GenerateMusicKeepsTrackValid(g: Generator, text: string, scale: string, oracle: nat -> nat, now: DateTime)
    requires ValidDateTime(now)
    requires ValidTrack(g)
    ensures ValidTrack(GenerateMusic(g, text, scale, oracle, now).gen)
  {
    var c := GenerateMusic(g, text, scale, oracle, now);
    GenerateMusicFrame(g, text, scale, oracle, now);
    forall k | 0 <= k < |c.gen.notes|
      ensures c.gen.notes[k] == NoteAt(c.gen.notes[k].pitch, c.gen.notes[k].time)
      ensures LowestPitch <= c.gen.notes[k].pitch <= HighestPitch
    {
      if k < |g.notes| {
        assert c.gen.notes[k] == c.gen.notes[..|g.notes|][k] == g.notes[k];
      } else {
        var j := k - |g.notes|;
        GenerateMusicNotes(g, text, scale, oracle, now, j);
        assert c.gen.notes[|g.notes| + j] == c.gen.notes[k];
        assert Allowed(g, Words(text)[j], scale, c.gen.notes[k].pitch);
      }
    }
  }

  /** One call of `generate_music` on the same generator. */
  datatype Request = Request(text: string, scale: string, oracle: nat -> nat, now: DateTime)

  predicate ValidRequests(reqs: seq<Request>) {
    forall i | 0 <= i < |reqs| :: ValidDateTime(reqs[i].now)
  }

  /** The generator after a series of calls, each made whether or not an
      earlier one raised. */
  function Run(g: Generator, reqs: seq<Request>): Generator
    requires ValidRequests(reqs)
    decreases |reqs|
  {
    if reqs == [] then g
    else
      var r := reqs[0];
      Run(GenerateMusic(g, r.text, r.scale, r.oracle, r.now).gen, reqs[1..])
  }

  /** Over any series of calls the tables stay as they were, the track only
      grows, keeps its single tempo event from construction, and stays
      valid. */
  lemma {:induction false} RunAccumulates(g: Generator, reqs: seq<Request>)
    requires ValidRequests(reqs)
    requires ValidTrack(g)
    ensures Run(g, reqs).scales == g.scales && Run(g, reqs).noteMapping == g.noteMapping
    ensures Run(g, reqs).tempos == [TempoEvent(0, 0, TEMPO)]
    ensures |g.notes| <= |Run(g, reqs).notes|
    ensures Run(g, reqs).notes[..|g.notes|] == g.notes
    ensures ValidTrack(Run(g, reqs))
    decreases |reqs|
  {
    if reqs != [] {
      var r := reqs[0];
      var c := GenerateMusic(g, r.text, r.scale, r.oracle, r.now);
      GenerateMusicFrame(g, r.text, r.scale, r.oracle, r.now);
      GenerateMusicKeepsTrackValid(g, r.text, r.scale, r.oracle, r.now);
      assert ValidRequests(reqs[1..]) by {
        forall i | 0 <= i < |reqs[1..]| ensures ValidDateTime(reqs[1..][i].now) {
          assert reqs[1..][i] == reqs[i + 1];
        }
      }
      RunAccumulates(c.gen, reqs[1..]);
      var final := Run(c.gen, reqs[1..]);
      assert final.notes[..|g.notes|] == final.notes[..|c.gen.notes|][..|g.notes|];
    }
  }

  /** Two calls on the same generator, each with its own scale: the track
      keeps what it held, then the first call's notes, then the second
      call's, and the tempo events stay as they were; a successful call adds
      one note per word. */
  lemma TwoCallsKeepTrack(g: Generator, text1: string, text2: string, scale1: string, scale2: string,
                          oracle1: nat -> nat, oracle2: nat -> nat, t1: DateTime, t2: DateTime,
                          c1: Call, c2: Call)
    requires ValidDateTime(t1) && ValidDateTime(t2)
    requires c1 == GenerateMusic(g, text1, scale1, oracle1, t1)
    requires c2 == GenerateMusic(c1.gen, text2, scale2, oracle2, t2)
    ensures c2.gen.tempos == g.tempos
    ensures |g.notes| <= |c1.gen.notes| <= |g.notes| + |Words(text1)|
    ensures |c1.gen.notes| <= |c2.gen.notes| <= |c1.gen.notes| + |Words(text2)|
    ensures c2.gen.notes[..|c1.gen.notes|] == c1.gen.notes
    ensures c1.gen.notes[..|g.notes|] == g.notes
    ensures c1.result.Success? ==> |c1.gen.notes| == |g.notes| + |Words(text1)|
    ensures c2.result.Success? ==> |c2.gen.notes| == |c1.gen.notes| + |Words(text2)|
  {
    GenerateMusicFrame(g, text1, scale1, oracle1, t1);
    GenerateMusicOutcome(g, text1, scale1, oracle1, t1);
    GenerateMusicFrame(c1.gen, text2, scale2, oracle2, t2);
    GenerateMusicOutcome(c1.gen, text2, scale2, oracle2, t2);
  }

  /** Of two calls on the same generator, the second call's notes belong
      to its own words, in order, with beats counted from 0 again, and
      with pitches the generator's original tables allow. */
  lemma SecondCallRestartsAtZero(g: Generator, text1: string, text2: string, scale1: string, scale2: string,
                                 oracle1: nat -> nat, oracle2: nat -> nat, t1: DateTime, t2: DateTime,
                                 c1: Call, c2: Call)
    requires ValidDateTime(t1) && ValidDateTime(t2)
    requires c1 == GenerateMusic(g, text1, scale1, oracle1, t1)
    requires c2 == GenerateMusic(c1.gen, text2, scale2, oracle2, t2)
    ensures |c1.gen.notes| <= |c2.gen.notes| <= |c1.gen.notes| + |Words(text2)|
    ensures forall k | |c1.gen.notes| <= k < |c2.gen.notes| ::
      c2.gen.notes[k] == NoteAt(c2.gen.notes[k].pitch, k - |c1.gen.notes|)
      && Allowed(g, Words(text2)[k - |c1.gen.notes|], scale2, c2.gen.notes[k].pitch)
  {
    GenerateMusicAddsNotes(g, text1, scale1, oracle1, t1);
    GenerateMusicAddsNotes(c1.gen, text2, scale2, oracle2, t2);
  }

  /** The default scale never fails on a new generator, nor on any
      generator a series of calls reaches from one: the calls leave the
      tables alone, and C major is a non-empty scale of them. */
  lemma DefaultScaleNeverFails(reqs: seq<Request>, text: string, oracle: nat -> nat, now: DateTime)
    requires ValidRequests(reqs)
    requires ValidDateTime(now)
    ensures var g := Run(NewGenerator(), reqs);
      var c := GenerateMusic(g, text, oracle := oracle, now := now);
      c.result == Success(MidiPath(now)) && |c.gen.notes| == |g.notes| + |Words(text)|
  {
    NewGeneratorValid();
    NewGeneratorTablesInRange();
    RunAccumulates(NewGenerator(), reqs);
    GenerateMusicOutcome(Run(NewGenerator(), reqs), text, "C_major", oracle, now);
  }

  /** Text with no words (empty, or only whitespace) adds no note and
      succeeds, whatever the scale name. */
  lemma BlankTextAddsNothing(g: Generator, text: string, scale: string, oracle: nat -> nat, now: DateTime)
    requires ValidDateTime(now)
    requires Blank(text)
    ensures GenerateMusic(g, text, scale, oracle, now) == Call(g, Success(MidiPath(now)))
  {
    WordsEmptyIffBlank(text);
    assert g.(notes := g.notes + []) == g;
  }

  /** Text whose every word is in the table never fails, even with an
      unknown scale name, and gets exactly the table's pitches. */
  lemma TableWordsNeverFail(g: Generator, text: string, scale: string, oracle: nat -> nat, now: DateTime)
    requires ValidDateTime(now)
    requires forall k | 0 <= k < |Words(text)| :: Upper(Words(text)[k]) in g.noteMapping
    ensures var c := GenerateMusic(g, text, scale, oracle, now);
      && c.result == Success(MidiPath(now))
      && |c.gen.notes| == |g.notes| + |Words(text)|
      && forall k | 0 <= k < |Words(text)| ::
           c.gen.notes[|g.notes| + k] == NoteAt(g.noteMapping[Upper(Words(text)[k])], k)
  {
    var c := GenerateMusic(g, text, scale, oracle, now);
    GenerateMusicOutcome(g, text, scale, oracle, now);
    forall k | 0 <= k < |Words(text)|
      ensures c.gen.notes[|g.notes| + k] == NoteAt(g.noteMapping[Upper(Words(text)[k])], k)
    {
      GenerateMusicNotes(g, text, scale, oracle, now, k);
    }
  }

  /** With an unknown scale name, a text containing a word outside the
      table fails with `KeyError`, keeping only the notes of the words
      before the first such word. */
  lemma UnknownScaleFailsOnUnmappedWord(g: Generator, text: string, scale: string, oracle: nat -> nat,
                                        now: DateTime, i: nat)
    requires ValidDateTime(now)
    requires scale !in g.scales
    requires i < |Words(text)| && !Mapped(g, Words(text)[i])
    requires forall k | 0 <= k < i :: Mapped(g, Words(text)[k])
    ensures GenerateMusic(g, text, scale, oracle, now).result == Failure(KeyError(scale))
    ensures |GenerateMusic(g, text, scale, oracle, now).gen.notes| == |g.notes| + i
  {
    GenerateMusicOutcome(g, text, scale, oracle, now);
    var c := GenerateMusic(g, text, scale, oracle, now);
    var added := |c.gen.notes| - |g.notes|;
    if added > i {
      GenerateMusicNotes(g, text, scale, oracle, now, i);
    }
  }

  /** The returned path lies directly in the MIDI directory (no `/`
      follows the directory's own), and ends in `.mid`. */
  lemma MidiPathShape(now: DateTime)
    requires ValidDateTime(now)
    ensures |MidiPath(now)| == |MIDI_DIR| + 26
    ensures MidiPath(now)[..|MIDI_DIR| + 1] == MIDI_DIR + "/"
    ensures forall i | |MIDI_DIR| + 1 <= i < |MidiPath(now)| :: MidiPath(now)[i] != '/'
    ensures MidiPath(now)[|MidiPath(now)| - 4..] == ".mid"
  {
  }

  /** "DO RE MI FA" splits into its four syllables. */
  lemma DoReMiFaWords(text: string)
    requires text == "DO RE MI FA"
    ensures Words(text) == ["DO", "RE", "MI", "FA"]
  {
    var ws := ["DO", "RE", "MI", "FA"];
    assert JoinWords(ws) == text;
    assert IsWord(ws[0]) && IsWord(ws[1]) && IsWord(ws[2]) && IsWord(ws[3]);
    SplitJoinRoundTrip(ws);
  }

  /** The four syllables are table keys with the pitches of C4, D4, E4, F4. */
  lemma DoReMiFaPitches(g: Generator, ws: seq<string>)
    requires g.noteMapping == NoteTable
    requires ws == ["DO", "RE", "MI", "FA"]
    ensures forall k | 0 <= k < |ws| ::
      Mapped(g, ws[k]) && g.noteMapping[Upper(ws[k])] == [60, 62, 64, 65][k]
  {
    assert Upper("DO") == "DO" && Upper("RE") == "RE" && Upper("MI") == "MI" && Upper("FA") == "FA";
  }

  /** The test's example of case insensitivity: "do", with the default
      scale, maps to C4 (60) whatever the random index. */
  lemma LowerCaseDo(word: string, choice: nat)
    requires word == "do"
    ensures MapWordToNote(NewGenerator(), word, choice := choice) == Success(60)
  {
    assert Upper(word) == "DO";
  }

  /** The test's example: on a new generator, "DO RE MI FA" with the
      default scale gives C4, D4, E4, F4 on beats 0 to 3 and returns the
      MIDI path. */
  lemma DoReMiFa(text: string, oracle: nat -> nat, now: DateTime)
    requires text == "DO RE MI FA"
    requires ValidDateTime(now)
    ensures var c := GenerateMusic(NewGenerator(), text, oracle := oracle, now := now);
      && c.gen.notes == [NoteAt(60, 0), NoteAt(62, 1), NoteAt(64, 2), NoteAt(65, 3)]
      && c.result == Success(MidiPath(now))
  {
    var g := NewGenerator();
    DoReMiFaWords(text);
    DoReMiFaPitches(g, Words(text));
    TableWordsNeverFail(g, text, "C_major", oracle, now);
    var c := GenerateMusic(g, text, "C_major", oracle, now);
    forall k | 0 <= k < 4
      ensures c.gen.notes[k] == [NoteAt(60, 0), NoteAt(62, 1), NoteAt(64, 2), NoteAt(65, 3)][k]
    {
      assert c.gen.notes[|g.notes| + k] == NoteAt([60, 62, 64, 65][k], k);
    }
  }
}
