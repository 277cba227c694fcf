# Voice-to-Music word sequencer, in Dafny

This project models the part of the Voice-to-Music Generator that turns
recognised text into MIDI note events, and the two string helpers it uses.

- `MusicGenerator` holds three things: a table of named scales, a
  word-to-pitch table, and one MIDI track. The track receives a single tempo
  event when the generator is built.
- `map_word_to_note` upper-cases a word and looks it up in the table. For a
  word that is not in the table, it picks a random note of the named scale.
- `generate_music` splits the text on whitespace. It adds one note per word:
  the k-th word's note starts at beat k, lasts one beat and uses the
  configured velocity. It then returns the path of a MIDI file named after
  the current time.
- The track belongs to the generator, not to the call. Notes therefore pile
  up across calls, and every call counts beats from 0 again.
- `generate_filename` and `log_error` build strings from the current time.

The modules, in dependency order:

- `Wrappers`: `Option` and `Result`.
- `Config`: the constants `TEMPO`, `VELOCITY` and `MIDI_DIR`.
- `Text`: the parts of Python's `str` the sequencer relies on.
  - `isspace`, exactly as Python defines it.
  - `upper`, for ASCII letters.
  - The argument-less `split`, with `" ".join` as its inverse.
- `Utils`: the `strftime` layouts, `generate_filename` and `log_error`. The
  current time is an argument.
- Python's default arguments (`scale='C_major'`, `context=""`) are Dafny
  default parameter values.
- `Music`: the generator as a value that each call takes and returns.
  - The MIDI track is the list of recorded `addTempo` and `addNote` calls.
  - `random.choice` becomes an oracle. It gives, for each beat, an index
    into the scale, read modulo the scale's length.
  - An exception becomes a `Failure`. The notes added before it stay on the
    track, as they do in the program.

## Model

| member | source | states |
|---|---|---|
| Music.NewGenerator | music_generator.py:11-33 | No contract of its own: the constructor's tables and its single tempo event. NewGeneratorValid and NewGeneratorTablesInRange state what it guarantees. |
| Music.NewGeneratorTablesInRange | music_generator.py:16-33 | The constructor's tables are in range. Every table pitch and every scale note lies between 57 and 71, and no scale is empty. The tables contain `C_major` and `DO`. |
| Music.NoteTableInRange | music_generator.py:23-33 | Every pitch in the word table lies between 57 and 71. |
| Music.ScalesInRange | music_generator.py:16-20 | Every named scale is non-empty, and its notes lie between 57 and 71. |
| Music.NewGeneratorValid | music_generator.py:11-13 | A new generator has no notes and exactly one tempo event: TEMPO on track 0 at time 0. |
| Music.MapWordToNote | music_generator.py:35-43 | The call succeeds exactly when the upper-cased word is a table key or the scale exists and is non-empty. A table word gets its entry; any other word gets a note of the scale. A failure is `KeyError(scale)` for an unknown scale and `IndexError` for an empty one. The scale defaults to `C_major`. |
| Music.MapWordToNoteIgnoresCase | music_generator.py:40-42 | Two spellings with the same upper-case form, one of them a table key, both give that key's pitch, whatever the scale or random index. |
| Music.MapWordToNoteCoversScale | music_generator.py:43 | For a word outside the table, some random index yields each note of the scale. The oracle does not narrow the random choice. |
| Music.MapWordToNoteInRange | music_generator.py:17-43 | With tables in range, a known scale never fails, and every returned pitch lies between 57 and 71. |
| Music.SequenceWords | music_generator.py:54-67 | No contract of its own: the loop body applied to each word in turn. SequenceWordsSpec states what it computes, and GenerateMusicLoop shows the program's loop computes the same. |
| Music.SequenceWordsSpec | music_generator.py:52-67 | The loop adds at most one note per word. Note k is at beat `time + k` with a pitch allowed for word k. The loop stops early only at a word outside the table when the scale cannot be used, and then raises that scale's error. |
| Music.SequenceWordsStep | music_generator.py:54-67 | One turn of the loop either stops with the error of the current word or appends that word's note and carries on with the next beat. |
| Music.GenerateMusicLoop | music_generator.py:51-67 | The program's loop, with a counter starting at 0 and one `addNote` per word, leaves the same track and result as the recursive model. |
| Music.GenerateMusic | music_generator.py:45-77 | No contract of its own: one call of `generate_music`, the scale defaulting to `C_major`. GenerateMusicFrame, GenerateMusicOutcome and GenerateMusicNotes state what it does. |
| Music.MidiPath | music_generator.py:70-71 | No contract of its own: the returned path, the generated file name inside the MIDI directory. MidiPathShape states its shape. |
| Music.GenerateMusicFrame | music_generator.py:54-67 | A call leaves the tables and tempo events alone and keeps every earlier note in place. It adds at most one note per word. |
| Music.GenerateMusicOutcome | music_generator.py:51-77 | A call succeeds exactly when the scale is usable or every word is in the table. A success adds exactly one note per word and returns the MIDI path. A failure raises the scale's error at the first word outside the table (every earlier word is in the table), after keeping the notes of the words before it. |
| Music.GenerateMusicNotes | music_generator.py:52-67 | The k-th note a call adds belongs to the k-th word: track 0, channel 0, time k, duration 1, volume VELOCITY, with a pitch `map_word_to_note` may give that word. |
| Music.GenerateMusicAddsNotes | music_generator.py:52-67 | Every call keeps the tables and the earlier notes, and adds notes for a prefix of its words: the k-th added note is at beat k with a pitch allowed for the k-th word. |
| Music.GenerateMusicKeepsTrackValid | music_generator.py:54-67 | Every call, successful or failing, keeps the track valid: the single tempo event, and notes on track 0, channel 0, one beat long, at VELOCITY, with pitches between 57 and 71. |
| Music.Run | music_generator.py:45-67 | No contract of its own: a series of `generate_music` calls on one generator, each made whether or not an earlier one raised, as the program's main loop makes them. RunAccumulates and DefaultScaleNeverFails state what it keeps. |
| Music.RunAccumulates | music_generator.py:45-67 | Over any series of calls on one generator, the tables stay the same, the track only grows, keeps its earlier notes in place, keeps its one tempo event and stays valid. |
| Music.TwoCallsKeepTrack | music_generator.py:45-67 | Two calls on one generator, each with any scale and on any track: the track holds its earlier notes, then the first call's, then the second call's, and keeps its tempo events. A successful call adds exactly one note per word. |
| Music.SecondCallRestartsAtZero | music_generator.py:45-67 | Of two calls on one generator, the second call's k-th note is at beat k again (the track made at line 12 is shared) and has a pitch the original tables allow for the second text's k-th word under the second scale. |
| Music.DefaultScaleNeverFails | music_generator.py:45 | With the default scale, a call on a new generator, or on any generator a series of calls reaches from one, succeeds and adds one note per word. |
| Music.BlankTextAddsNothing | music_generator.py:51-54 | Empty or all-whitespace text leaves the generator unchanged and returns the MIDI path, even with an unknown scale name. |
| Music.TableWordsNeverFail | music_generator.py:41-56 | When every word is in the table, the call succeeds whatever the scale name. Word k gets exactly its table pitch at beat k. |
| Music.UnknownScaleFailsOnUnmappedWord | music_generator.py:41-56 | With an unknown scale, the first word outside the table raises `KeyError(scale)`, and only the notes of the words before it stay. |
| Music.MidiPathShape | music_generator.py:70-71 | The returned path starts with `output/midi/`, has no further `/` (so its directory is the MIDI directory), ends with `.mid` and has a fixed length. |
| Music.DoReMiFaWords | tests/test_music_generator.py:33 | `"DO RE MI FA"` splits into its four syllables. |
| Music.DoReMiFaPitches | music_generator.py:25 | The four syllables are table keys with pitches 60, 62, 64 and 65. |
| Music.LowerCaseDo | tests/test_music_generator.py:26 | `"do"` with the default scale maps to 60, whatever the random index. |
| Music.DoReMiFa | tests/test_music_generator.py:32-39 | On a new generator, `"DO RE MI FA"` with the default scale adds C4, D4, E4 and F4 on beats 0 to 3, and returns the MIDI path. |
| Text.IsSpace | music_generator.py:51 | No contract of its own: the characters Python's `str.isspace` accepts, which `split()` separates on. WordsOfBlankThen and WordsOfWordThen state how `split()` uses them. |
| Text.Words | music_generator.py:51 | `split()` yields non-empty, whitespace-free items, never more than the text has characters. |
| Text.WordLength | music_generator.py:51 | The length of a text's leading word is the longest whitespace-free prefix. |
| Text.WordsEmptyIffBlank | music_generator.py:51 | `split()` yields nothing exactly when the text is empty or all whitespace. |
| Text.WordsKeepAllOtherCharacters | music_generator.py:51 | Gluing the items of `split()` back together gives the text's non-whitespace characters in their original order. |
| Text.WordsOfBlankThen | music_generator.py:51 | Leading whitespace of any length and kind yields no item. |
| Text.WordsOfWordThen | music_generator.py:51 | A whole run of non-whitespace followed by the end or by whitespace is the first item. With WordsOfBlankThen this fixes `split()` on every text. |
| Text.SplitJoinRoundTrip | music_generator.py:51 | Joining any list of words with single spaces and splitting the result gives the list back. |
| Text.Upper | music_generator.py:40 | The upper-cased word differs from the word only in the case of ASCII letters, and has no lower-case ASCII letter left. |
| Text.UpperIdempotent | music_generator.py:40 | Upper-casing twice is the same as upper-casing once. |
| Text.UpperEqualIffSameUpToCase | music_generator.py:40 | Two words upper-case to the same string exactly when they differ only in the case of ASCII letters. |
| Utils.Decimal | utils.py:13 | A zero-padded field has exactly the width asked for, and every character is a digit. |
| Utils.ParseDecimalRoundTrip | utils.py:13 | A padded number that fits its width reads back as the number. |
| Utils.CompactTimestamp | utils.py:13 | `%Y%m%d_%H%M%S` has 15 characters: digits, with `_` at index 8. |
| Utils.CompactTimestampRoundTrip | utils.py:13 | The file-name timestamp reads back as the instant it was printed from. |
| Utils.GenerateFilename | utils.py:9-14 | No contract of its own: `prefix_timestamp.extension`. GenerateFilenameSpec states its shape. |
| Utils.GenerateFilenameSpec | utils.py:9-14 | The name starts with `prefix_` and ends with `.extension`. It is 17 characters longer than prefix and extension together. The part in between reads back as the instant. |
| Utils.FilenamesDifferAcrossSeconds | utils.py:13-14 | Names generated at two instants that differ to the second differ. Two calls within one second get the same name (see the Utils.DateTime line below). |
| Utils.LogTimestamp | utils.py:26 | `%Y-%m-%d %H:%M:%S` has 19 characters. |
| Utils.LogTimestampRoundTrip | utils.py:26 | The log-line timestamp reads back as the instant it was printed from. |
| Utils.LogMessage | utils.py:27-29 | No contract of its own: the line built from a rendered timestamp, the error and the context. LogMessageShape states its parts. |
| Utils.LogMessageShape | utils.py:27-29 | The log line is `[ts] ERROR: ` followed by the error text. A non-empty context adds ` (Context: ctx)`. The line contains the error text, and the context when there is one. |
| Utils.LogError | utils.py:22-31 | The printed line is appended to the console and returned unchanged. It carries the stamp, which reads back as the instant, the error text at a fixed position and the context suffix, and its length is exact. The context defaults to empty. |
| Utils.LogErrorWithoutContext | utils.py:22-28 | With the default empty context, the line is exactly `[stamp] ERROR: ` followed by the error text. |
| Utils.LogErrorAlwaysStamped | utils.py:26-27 | The returned line is never the bare error text, and is always longer. |

## Left out

- The MIDI serialisation, the file write and the "MIDI file generated" print (music_generator.py:73-76). The `midiutil` library and I/O are outside the model. The track is the list of `addTempo`/`addNote` calls.
- The `except` block of `generate_music` (music_generator.py:79-81), which logs the error with context `music_generation` and re-raises it. The model returns the error unchanged; `Utils.LogError` models the logging on its own.
- `Timer` (utils.py:33-47). It reads the wall clock and only prints.
- `get_file_path` (utils.py:16-20), which calls `os.path.join`. `Music.MidiPath` writes it as POSIX concatenation with `/`, and `Config.MIDI_DIR` is `output/midi` for the same reason.
- Music.MapWordToNote: the program picks a pseudo-random note; the model takes any index from an oracle and reads it modulo the scale's length. Which note the generator actually picks is not modelled.
- Text.Upper: only ASCII letters are upper-cased. Python's `str.upper` also maps other letters, and some (`ß`, ligatures) to several characters. A non-ASCII word whose Python upper-case form is a table key (for instance one spelled with `ı` or `ſ`) is not modelled.
- Utils.LogError: `str(error)` is taken as already rendered. An exception's rendering is not modelled.
- Utils.DateTime: sub-second precision is dropped; two calls within one second get the same file name. `datetime.now()` carries microseconds, but `%Y%m%d_%H%M%S` does not print them, so the name is not unique as the docstring at utils.py:11 says, and a second `generate_music` in the same second writes over the first file. FilenamesDifferAcrossSeconds is stated for instants that differ to the second.
- Utils.ValidDateTime: years before 1000 are excluded, because how `%Y` pads them depends on the platform.
- The assertion at tests/test_utils.py:44, which expects `log_error("Test error")` to return the bare message. The code always adds the timestamp prefix, and `Utils.LogErrorAlwaysStamped` proves the result never equals the message.
- The audio modules (`audio_processor.py`, `speech_recognizer.py`), `main.py`, `install_deps.js`, and `config.py`'s directory creation and dotenv loading: microphone and file I/O, a network speech service, floating-point analysis and process spawning. The analysis functions imported at tests/test_utils.py:11-14 are not part of this model, since no source for them exists.
