/**
 * The two pitch tables of the instrument and the lookups that turn a
 * button's note type and note index into an oscillator frequency
 * (main.js:24-44, main.js:194-203, main.js:284-288).
 *
 * Frequencies are exact decimal reals, not IEEE doubles; only their
 * presence and their being non-zero (truthy) matter to the registry.
 */
module Notes {
  import opened Wrappers

  /** Star buttons: C major pentatonic over two octaves, C4 to E5, in Hz. */
  const ChordFreqs: seq<real> := [261.63, 293.66, 329.63, 392.0, 440.0, 523.25, 587.33, 659.25]

  /** Magic-circle (flute) buttons: a higher pentatonic run, C5 to D6, in Hz. */
  const MelodyFreqs: seq<real> := [523.25, 587.33, 659.25, 783.99, 880.0, 1046.5, 1174.7]

  /** The `data-note-type` attribute of a button: "chord", "melody" or anything else. */
  datatype NoteType = Chord | Melody | OtherType

  /**
   * `Number(data-note-index)`: an integral number, or a value that indexes
   * no array element (NaN, a fraction, an infinity).
   */
  datatype NoteIndex = Integral(n: int) | NonIntegral

  /** A keyboard binding's note, as read from the button that declares the key. */
  datatype NoteInfo = NoteInfo(noteType: NoteType, index: NoteIndex)

  predicate InTable(idx: NoteIndex, len: nat) {
    idx.Integral? && 0 <= idx.n < len
  }

  /** JavaScript's `table[idx]`: the element, or `undefined` outside the table. */
  function Lookup(table: seq<real>, idx: NoteIndex): (f: Option<real>)
    ensures f.Some? <==> InTable(idx, |table|)
    ensures f.Some? ==> f.value in table
  {
    if InTable(idx, |table|) then Some(table[idx.n]) else None
  }

  /** JavaScript truthiness of a frequency: `undefined`, `null` and 0 are falsy. */
  predicate Truthy(f: Option<real>) {
    f.Some? && f.value != 0.0
  }

  /**
   * getFreqByElement: the chord table for "chord", the melody table for
   * "melody", and nothing for any other note type.
   */
  function FreqByElement(noteType: NoteType, idx: NoteIndex): (f: Option<real>)
    ensures f.Some? <==> (noteType == Chord && InTable(idx, 8)) || (noteType == Melody && InTable(idx, 7))
    ensures noteType == Chord && f.Some? ==> f.value == ChordFreqs[idx.n]
    ensures noteType == Melody && f.Some? ==> f.value == MelodyFreqs[idx.n]
    ensures Truthy(f) <==> f.Some?
  {
    match noteType
    case Chord => Lookup(ChordFreqs, idx)
    case Melody => Lookup(MelodyFreqs, idx)
    case OtherType => None
  }

  /**
   * The keydown handler's lookup: the chord table when the type is "chord",
   * and the melody table for every other type, "melody" or not.
   */
  function KeyFreq(info: NoteInfo): (f: Option<real>)
    ensures f.Some? <==> InTable(info.index, if info.noteType == Chord then 8 else 7)
    ensures info.noteType != OtherType ==> f == FreqByElement(info.noteType, info.index)
    ensures info.noteType == OtherType ==> f == FreqByElement(Melody, info.index)
  {
    if info.noteType == Chord then Lookup(ChordFreqs, info.index) else Lookup(MelodyFreqs, info.index)
  }
}
