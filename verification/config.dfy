/** The fixed settings of config.py that the generator reads.  Directory
    creation and environment loading are not part of this model. */
module Config {

  /** Beats per minute written as the track's single tempo event. */
  const TEMPO: nat := 120

  /** Velocity (volume) of every generated note. */
  const VELOCITY: nat := 100

  /** `os.path.join("output", "midi")` on a POSIX system. */
  const MIDI_DIR: string := "output/midi"
}
