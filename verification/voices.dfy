/**
 * The voice registry and sustain pedal of the instrument (main.js:11-19,
 * main.js:54-118, main.js:205-231, main.js:274-310).
 *
 * The module-level state of the page (the sustain flag, the set of live
 * voices, the pointer and keyboard bindings) is one `Registry` object;
 * every handler is a method on it. The Web Audio side of a voice (its
 * oscillator, its gain envelope, its start and stop times) is left out:
 * a voice is an object with its frequency and its `sustained` flag.
 */
module Voices {
  import opened Wrappers
  import opened Notes

  type PointerId = int

  /** `KeyboardEvent.key`, already lower-cased. */
  type Key = string

  /** One sounding tone: `{ osc, gain, sustained }`. */
  class Voice {
    const freq: real
    /** Set when the voice's input ended while the pedal was down. */
    var sustained: bool

    constructor (freq: real)
      ensures this.freq == freq && !sustained
    {
      this.freq := freq;
      sustained := false;
    }
  }

  class Registry {
    var sustainOn: bool
    var allVoices: set<Voice>
    /** Pointer id to the voice it started. */
    var pointerVoices: map<PointerId, Voice>
    /** Key to its voice; a key absent from the map is `undefined`, a released one `null`. */
    var keyVoices: map<Key, Voice?>

    /** The live voices waiting for the pedal to come up. */
    ghost function SustainedVoices(): set<Voice>
      reads this, allVoices
    {
      set v | v in allVoices && v.sustained
    }

    /** While the pedal is up, no live voice waits for it. */
    ghost predicate SustainConsistent()
      reads this, allVoices
    {
      !sustainOn ==> forall v :: v in allVoices ==> !v.sustained
    }

    /**
     * Every voice still held by a pointer or a key is live and not waiting
     * for the pedal, and no voice is held by two inputs.
     */
    ghost predicate BindingsValid()
      reads this, allVoices
    {
      && (forall p :: p in pointerVoices ==> pointerVoices[p] in allVoices && !pointerVoices[p].sustained)
      && (forall k :: k in keyVoices && keyVoices[k] != null ==> keyVoices[k] in allVoices && !keyVoices[k].sustained)
      && (forall p, q :: p in pointerVoices && q in pointerVoices && p != q ==> pointerVoices[p] != pointerVoices[q])
      && (forall k, l :: k in keyVoices && l in keyVoices && k != l && keyVoices[k] != null ==> keyVoices[k] != keyVoices[l])
      && (forall p, k :: p in pointerVoices && k in keyVoices ==> pointerVoices[p] != keyVoices[k])
    }

    ghost predicate Valid()
      reads this, allVoices
    {
      SustainConsistent() && BindingsValid()
    }

    /** `keyVoices[key]`, with `undefined` read as `null`. */
    function KeyVoice(key: Key): Voice?
      reads this
    {
      if key in keyVoices then keyVoices[key] else null
    }

    /** The voice a pointer id holds, as a frame. */
    function PointerFrame(pointerId: PointerId): set<Voice>
      reads this
    {
      if pointerId in pointerVoices then {pointerVoices[pointerId]} else {}
    }

    /** The voice a key holds, as a frame. */
    function KeyFrame(key: Key): set<Voice?>
      reads this
    {
      if KeyVoice(key) != null then {KeyVoice(key)} else {}
    }

    /** The initial page state: pedal up, no voices, no bindings. */
    constructor ()
      ensures Valid()
      ensures !sustainOn && allVoices == {} && pointerVoices == map[] && keyVoices == map[]
    {
      sustainOn := false;
      allVoices := {};
      pointerVoices := map[];
      keyVoices := map[];
    }

    /** createVoice: a fresh, unsustained voice joins the live set. */
    method CreateVoice(freq: real) returns (voice: Voice)
      requires Valid()
      modifies this
      ensures Valid()
      ensures fresh(voice) && voice.freq == freq && !voice.sustained
      ensures allVoices == old(allVoices) + {voice}
      ensures sustainOn == old(sustainOn) && pointerVoices == old(pointerVoices) && keyVoices == old(keyVoices)
    {
      voice := new Voice(freq);
      allVoices := allVoices + {voice};
    }

    /** startVoice: createVoice followed by the attack envelope, which is left out. */
    method StartVoice(freq: real) returns (voice: Voice)
      requires Valid()
      modifies this
      ensures Valid()
      ensures fresh(voice) && voice.freq == freq && !voice.sustained
      ensures allVoices == old(allVoices) + {voice}
      ensures sustainOn == old(sustainOn) && pointerVoices == old(pointerVoices) && keyVoices == old(keyVoices)
    {
      voice := CreateVoice(freq);
    }

    /**
     * releaseVoice: the voice leaves the live set at once (its fade-out and
     * oscillator stop are left out); a null voice is ignored.
     */
    method ReleaseVoice(voice: Voice?)
      modifies this
      ensures allVoices == if voice == null then old(allVoices) else old(allVoices) - {voice}
      ensures sustainOn == old(sustainOn) && pointerVoices == old(pointerVoices) && keyVoices == old(keyVoices)
      ensures old(SustainConsistent()) ==> SustainConsistent()
    {
      if voice == null {
        return;
      }
      allVoices := allVoices - {voice};
    }

    /**
     * stopVoice: with the pedal down the voice is only marked as sustained
     * and keeps sounding; with the pedal up it is released. Nothing else
     * changes, and a null voice is ignored.
     */
    method StopVoice(voice: Voice?)
      modifies this, voice
      ensures sustainOn == old(sustainOn) && pointerVoices == old(pointerVoices) && keyVoices == old(keyVoices)
      ensures voice == null ==> allVoices == old(allVoices)
      ensures voice != null && sustainOn ==> voice.sustained && allVoices == old(allVoices)
      ensures voice != null && !sustainOn ==>
        voice.sustained == old(voice.sustained) && allVoices == old(allVoices) - {voice}
      ensures old(SustainConsistent()) ==> SustainConsistent()
    {
      if voice == null {
        return;
      }
      if sustainOn {
        voice.sustained := true;
        return;
      }
      ReleaseVoice(voice);
    }

    /**
     * The first loop of releaseSustainedVoices: the live voices marked as
     * sustained, each once, collected before any of them is released.
     */
    method CollectSustained() returns (vs: seq<Voice>)
      ensures forall v :: v in vs <==> v in allVoices && v.sustained
      ensures forall i, j :: 0 <= i < j < |vs| ==> vs[i] != vs[j]
    {
      vs := [];
      var rest := allVoices;
      while rest != {}
        invariant rest <= allVoices
        invariant forall v :: v in vs <==> v in allVoices && v !in rest && v.sustained
        invariant forall i, j :: 0 <= i < j < |vs| ==> vs[i] != vs[j]
        decreases rest
      {
        var v :| v in rest;
        if v.sustained {
          vs := vs + [v];
        }
        rest := rest - {v};
      }
    }

    /**
     * releaseSustainedVoices: exactly the voices marked as sustained leave
     * the live set, and no live voice is left marked.
     */
    method ReleaseSustainedVoices()
      modifies this
      ensures allVoices == old(allVoices) - old(SustainedVoices())
      ensures SustainedVoices() == {}
      ensures sustainOn == old(sustainOn) && pointerVoices == old(pointerVoices) && keyVoices == old(keyVoices)
    {
      var toRelease := CollectSustained();
      ghost var marked := SustainedVoices();
      assert (set v | v in toRelease) == marked;
      var i := 0;
      while i < |toRelease|
        invariant 0 <= i <= |toRelease|
        invariant allVoices == old(allVoices) - (set v | v in toRelease[..i])
        invariant sustainOn == old(sustainOn) && pointerVoices == old(pointerVoices) && keyVoices == old(keyVoices)
      {
        ReleaseVoice(toRelease[i]);
        assert toRelease[..i + 1] == toRelease[..i] + [toRelease[i]];
        i := i + 1;
      }
      assert toRelease[..i] == toRelease;
    }

    /**
     * setSustain: an edge-triggered pedal. Setting the current value changes
     * nothing; pressing it changes only the flag; lifting it releases
     * exactly the voices that were waiting for it, and no voice still held
     * by an input is released.
     */
    method SetSustain(on: bool)
      requires Valid()
      modifies this
      ensures Valid()
      ensures sustainOn == on
      ensures pointerVoices == old(pointerVoices) && keyVoices == old(keyVoices)
      ensures on == old(sustainOn) || on ==> allVoices == old(allVoices)
      ensures !on && old(sustainOn) ==> allVoices == old(allVoices) - old(SustainedVoices())
      ensures SustainedVoices() == if on then old(SustainedVoices()) else {}
    {
      if on == sustainOn {
        return;
      }
      sustainOn := on;
      if !sustainOn {
        ReleaseSustainedVoices();
      }
    }

    /**
     * The pointerdown handler of a note button: no voice when the button
     * yields no frequency; otherwise a new voice bound to the pointer id,
     * replacing any earlier binding, whose voice is left live and unbound.
     */
    method HandleKeyPointerDown(noteType: NoteType, index: NoteIndex, pointerId: PointerId)
      requires Valid()
      modifies this
      ensures Valid()
      ensures sustainOn == old(sustainOn) && keyVoices == old(keyVoices)
      ensures FreqByElement(noteType, index).None? ==>
        allVoices == old(allVoices) && pointerVoices == old(pointerVoices)
      ensures FreqByElement(noteType, index).Some? ==>
        && pointerId in pointerVoices
        && var voice := pointerVoices[pointerId];
        && fresh(voice) && voice.freq == FreqByElement(noteType, index).value && !voice.sustained
        && allVoices == old(allVoices) + {voice}
        && pointerVoices == old(pointerVoices)[pointerId := voice]
    {
      var freq := FreqByElement(noteType, index);
      if !Truthy(freq) {
        return;
      }
      var voice := StartVoice(freq.value);
      pointerVoices := pointerVoices[pointerId := voice];
    }

    /**
     * The pointerup, pointercancel and pointerleave handler of a note
     * button: an unbound pointer id changes nothing; a bound one has its
     * voice stopped once and is unbound, so a repeated event changes nothing.
     */
    method HandleKeyPointerUp(pointerId: PointerId)
      requires Valid()
      modifies this, PointerFrame(pointerId)
      ensures Valid()
      ensures sustainOn == old(sustainOn) && keyVoices == old(keyVoices)
      ensures pointerId !in pointerVoices
      ensures pointerId !in old(pointerVoices) ==>
        allVoices == old(allVoices) && pointerVoices == old(pointerVoices)
      ensures pointerId in old(pointerVoices) ==>
        && var voice := old(pointerVoices[pointerId]);
        && pointerVoices == old(pointerVoices) - {pointerId}
        && (sustainOn ==> voice.sustained && allVoices == old(allVoices))
        && (!sustainOn ==> !voice.sustained && allVoices == old(allVoices) - {voice})
    {
      if pointerId in pointerVoices {
        var voice := pointerVoices[pointerId];
        StopVoice(voice);
        pointerVoices := pointerVoices - {pointerId};
      }
    }

    /**
     * The keydown handler: a key with no note, an auto-repeat, or a key
     * already holding a voice changes nothing; otherwise a new voice is
     * bound to the key.
     */
    method HandleKeyDown(keyNotes: map<Key, NoteInfo>, key: Key, repeat: bool)
      requires Valid()
      requires key in keyNotes ==> KeyFreq(keyNotes[key]).Some?
      modifies this
      ensures Valid()
      ensures sustainOn == old(sustainOn) && pointerVoices == old(pointerVoices)
      ensures key !in keyNotes || repeat || old(KeyVoice(key)) != null ==>
        allVoices == old(allVoices) && keyVoices == old(keyVoices)
      ensures key in keyNotes && !repeat && old(KeyVoice(key)) == null ==>
        && KeyVoice(key) != null
        && var voice := KeyVoice(key);
        && fresh(voice) && voice.freq == KeyFreq(keyNotes[key]).value && !voice.sustained
        && allVoices == old(allVoices) + {voice}
        && keyVoices == old(keyVoices)[key := voice]
    {
      if key !in keyNotes {
        return;
      }
      if repeat {
        return;
      }
      if KeyVoice(key) != null {
        return;
      }
      var info := keyNotes[key];
      var freq := KeyFreq(info);
      var voice := StartVoice(freq.value);
      keyVoices := keyVoices[key := voice];
    }

    /**
     * The keyup handler: a key holding no voice changes nothing; otherwise
     * its voice is stopped once and the key is set to null, so a repeated
     * keyup changes nothing.
     */
    method HandleKeyUp(key: Key)
      requires Valid()
      modifies this, KeyFrame(key)
      ensures Valid()
      ensures sustainOn == old(sustainOn) && pointerVoices == old(pointerVoices)
      ensures KeyVoice(key) == null
      ensures old(KeyVoice(key)) == null ==>
        allVoices == old(allVoices) && keyVoices == old(keyVoices)
      ensures old(KeyVoice(key)) != null ==>
        && var voice := old(KeyVoice(key));
        && keyVoices == old(keyVoices)[key := null]
        && (sustainOn ==> voice.sustained && allVoices == old(allVoices))
        && (!sustainOn ==> !voice.sustained && allVoices == old(allVoices) - {voice})
    {
      var voice := KeyVoice(key);
      if voice == null {
        return;
      }
      StopVoice(voice);
      keyVoices := keyVoices[key := null];
    }
  }
}
