# SORALINA voice registry, modelled in Dafny

SORALINA is a browser instrument. Star and magic-circle buttons, played by
pointer or keyboard, start sine voices. A moon button works as a momentary
sustain pedal. A sun button sets the master volume by dragging.
This project models the part of `main.js` that keeps state:

- the voice registry: the set of live voices, each with its `sustained` flag;
- the sustain pedal: the `sustainOn` flag and the flush of waiting voices when the pedal comes up;
- the two input-binding tables: pointer id to voice, and key to voice or `null`;
- the handlers that start and stop voices through those tables;
- the two pure pieces beside them: the pitch-table lookup and the clamp on the dragged gain.

Files:

- `wrappers.dfy`: `Option`, for JavaScript's `undefined`/`null`.
- `notes.dfy` (module `Notes`): the chord and melody tables, `getFreqByElement`, and the keyboard handler's own lookup.
- `volume.dfy` (module `Volume`): the dragged master gain.
- `voices.dfy` (module `Voices`): class `Voice` and class `Registry`. `Registry` holds the page's module-level state. Its methods are `createVoice`, `startVoice`, `releaseVoice`, `stopVoice`, `releaseSustainedVoices`, `setSustain` and the four input handlers.
- `scenarios.dfy` (module `Scenarios`): event sequences on a fresh page, proved from the handlers' contracts alone.

`Registry.Valid()` is the registry's invariant. It has two parts:

- `SustainConsistent`: while the pedal is up, no live voice is marked sustained.
- `BindingsValid`: every voice held by a pointer or a key is live and unmarked, and no voice is held by two inputs.

The constructor establishes it, and `CreateVoice`, `StartVoice`, `SetSustain` and the four input handlers require and preserve it. A consequence is that lifting the pedal never silences a note whose input is still held. Three internal steps do not carry it:

- `StopVoice` and `ReleaseVoice` only keep `SustainConsistent`. Inside a handler, the voice is briefly released while still bound, and the handler unbinds it right after.
- `ReleaseSustainedVoices` runs after `SetSustain` has already lowered the flag, so `SustainConsistent` does not hold when it is called. It ends with no live voice marked (`SustainedVoices() == {}`), which restores it.

Three behaviours of the code are easy to miss; the model follows the code:

- `releaseVoice` removes the voice from the live set at once (main.js:85). Removal does not wait until its fade-out ends.
- Only the keyboard path refuses a second start for an input that already holds a voice (main.js:279-280). A pointerdown for a pointer id that is already bound overwrites the binding (main.js:213). The earlier voice stays live, held by no input. No later event stops it, the pedal included (`Scenarios.PointerRebindLeavesVoice`).
- `stopVoice` on a voice that is no longer live sets its flag while the pedal is down. It is not a no-op, but the flag is never read again, since only live voices are flushed.

## Model

| member | source | states |
|---|---|---|
| `Notes.Lookup` | main.js:198 | JavaScript array indexing: a table entry exactly when the index is an integer inside the table, `undefined` otherwise |
| `Notes.FreqByElement` | main.js:194-203 | a frequency exactly for a "chord" index in 0..7 or a "melody" index in 0..6, taken from the matching table; every frequency it yields is truthy, so the pointer handler's `!freq` test is exactly "no frequency" |
| `Notes.KeyFreq` | main.js:284-288 | the keyboard lookup yields a frequency exactly when the index lies in the chord table (type "chord") or in the melody table (any other type); it agrees with `getFreqByElement` for "chord" and "melody" and reads every other type as "melody" |
| `Volume.DragGain` | main.js:142-148 | the dragged gain always lies in [0, 1] and equals `startGain - dy * 0.003` whenever that value is already in range |
| `Volume.DragGainIsNearest` | main.js:145-147 | the clamped gain is the point of [0, 1] nearest to the unclamped value |
| `Volume.DragGainMonotone` | main.js:144-147 | dragging further down never raises the gain |
| `Voices.Voice.constructor` | main.js:64 | a new voice carries its frequency and is not marked sustained |
| `Voices.Registry.constructor` | main.js:11-19 | the page starts with the pedal up, no live voices and empty binding tables, and satisfies the invariant |
| `Voices.Registry.CreateVoice` | main.js:54-67 | adds exactly one fresh, unmarked voice with the given frequency to the live set; bindings, pedal and existing voices are untouched; the invariant is kept |
| `Voices.Registry.StartVoice` | main.js:69-77 | the same registry effect as `createVoice`, returning the new voice |
| `Voices.Registry.ReleaseVoice` | main.js:79-86 | removes the voice from the live set at once; a null voice changes nothing; nothing else changes |
| `Voices.Registry.StopVoice` | main.js:88-97 | null: no change; pedal down: only the voice's flag is set and the live set is unchanged; pedal up: exactly that voice leaves the live set and its flag is unchanged; the pedal-consistency invariant is kept |
| `Voices.Registry.CollectSustained` | main.js:100-103 | returns exactly the live voices marked sustained, each once, read before any is released |
| `Voices.Registry.ReleaseSustainedVoices` | main.js:99-105 | the live set afterwards is the old one minus exactly the marked voices; no live voice stays marked; pedal and bindings unchanged |
| `Voices.Registry.SetSustain` | main.js:107-118 | the flag ends equal to the argument; same value or pressing: the live set is unchanged; lifting: the live set loses exactly the voices that were marked and none stays marked; bindings unchanged; the invariant (so "held voices stay live") is kept |
| `Voices.Registry.HandleKeyPointerDown` | main.js:205-217 | no frequency: nothing changes; otherwise one fresh unmarked voice with that frequency joins the live set and the pointer id is bound to it, overwriting any earlier binding; key bindings and pedal unchanged |
| `Voices.Registry.HandleKeyPointerUp` | main.js:219-231 | an unbound pointer id changes nothing; a bound one has its voice stopped once (marked with the pedal down, removed with it up) and is unbound; afterwards the id is unbound, so a repeated event changes nothing |
| `Voices.Registry.HandleKeyDown` | main.js:274-296 | a key without a note, an auto-repeat or a key already holding a voice changes nothing; otherwise one fresh unmarked voice with the key's frequency joins the live set and is bound to the key |
| `Voices.Registry.HandleKeyUp` | main.js:298-310 | a key holding no voice changes nothing; otherwise its voice is stopped once and the key is set to null, so a repeated keyup changes nothing |
| `Scenarios.PressAndRelease` | main.js:274-304 | key down then up with the pedal up: one live voice while held, none after |
| `Scenarios.PedalHoldsVoice` | main.js:88-118 | with the pedal down the released key's voice stays live; lifting the pedal releases it |
| `Scenarios.DuplicateKeyDown` | main.js:278-280 | repeated keydowns before the keyup start a single voice |
| `Scenarios.StrayRelease` | main.js:219-224 | keyup and pointerup for inputs that never started leave the registry empty and the pedal up |
| `Scenarios.PointerRebindLeavesVoice` | main.js:212-213 | a second pointerdown on the same id leaves the first voice live and unbound, even after the pointerup and a full pedal press and lift |

## Left out

- Web Audio: oscillator and gain-node creation, the attack and release ramps, `cancelScheduledValues`, `osc.start`/`osc.stop`, `currentTime`, and `ensureAudioRunning`/`resume`. These are platform calls with timing semantics. A voice is an object holding its frequency and its `sustained` flag.
- The release durations (0.2, 0.25 and 0.3 s), the 0.03 s attack and `releaseVoice`'s `releaseTime` parameter. They only schedule audio and do not touch the registry.
- DOM and UI: element lookup, `classList` toggling on buttons and the moon button, `preventDefault`, pointer capture and its try/catch, the volume percentage display (main.js:130-132) and the sun button's `scale` transform (main.js:151-152).
- The sun button's drag state (`isAdjustingVolume`, `startY`, `startGain`, main.js:123-166). Only the clamp of the new gain is modelled, as a function of the drag's start gain, start position and current position.
- The moon button's listeners (main.js:174-190). They only call `setSustain(true)` on press and `setSustain(false)` on release or cancel.
- The listener wiring for the buttons (main.js:234-247). Every pointerup, pointercancel and pointerleave goes to the same handler, modelled once.
- Building `keyToNoteInfo` from `data-` attributes (main.js:251-272). The key-to-note table is a parameter of `HandleKeyDown`, and the button element it names is left out.
- Lower-casing of `e.key`. Keys are taken as already lower-cased. Property names inherited from `Object.prototype` (such as `constructor`) are not modelled as present in `keyToNoteInfo` or `keyVoices`.
- HandleKeyDown: requires that a key with a note resolves to a table entry. The handler itself does not check this. A note outside its table would hand `undefined` to the oscillator, and that audio-engine behaviour is not part of this model.
- IEEE floating point. Frequencies and gains are exact reals, so the rounding of `startGain - dy * 0.003` is not modelled.
- The order in which `releaseSustainedVoices` visits the live set (JavaScript `Set` insertion order). `CollectSustained` visits it in an arbitrary order, and the order has no effect on the registry.
