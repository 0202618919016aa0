/**
 * Event sequences on a fresh page, proved from the contracts of the
 * registry's handlers alone. Each returns the number of live voices at
 * the points that matter.
 */
module Scenarios {
  import opened Notes
  import opened Voices

  /** The key "a" plays A4 from the chord table. */
  function Keys(): map<Key, NoteInfo> {
    map["a" := NoteInfo(Chord, Integral(4))]
  }

  /** A key pressed and released with the pedal up: one voice, then none. */
  method PressAndRelease() returns (whileHeld: nat, afterRelease: nat)
    ensures whileHeld == 1 && afterRelease == 0
  {
    var r := new Registry();
    r.HandleKeyDown(Keys(), "a", false);
    whileHeld := |r.allVoices|;
    r.HandleKeyUp("a");
    afterRelease := |r.allVoices|;
  }

  /**
   * With the pedal down, releasing the key keeps its voice live; lifting
   * the pedal releases it.
   */
  method PedalHoldsVoice() returns (afterKeyUp: nat, afterPedalUp: nat)
    ensures afterKeyUp == 1 && afterPedalUp == 0
  {
    var r := new Registry();
    r.SetSustain(true);
    r.HandleKeyDown(Keys(), "a", false);
    r.HandleKeyUp("a");
    afterKeyUp := |r.allVoices|;
    r.SetSustain(false);
    afterPedalUp := |r.allVoices|;
  }

  /** A second keydown before the keyup, repeat flag or not, starts no second voice. */
  method DuplicateKeyDown() returns (live: nat)
    ensures live == 1
  {
    var r := new Registry();
    r.HandleKeyDown(Keys(), "a", false);
    r.HandleKeyDown(Keys(), "a", true);
    r.HandleKeyDown(Keys(), "a", false);
    live := |r.allVoices|;
  }

  /** A release event for an input that never started changes nothing. */
  method StrayRelease() returns (live: nat, pedal: bool)
    ensures live == 0 && !pedal
  {
    var r := new Registry();
    r.HandleKeyUp("q");
    r.HandleKeyPointerUp(99);
    r.HandleKeyUp("a");
    live, pedal := |r.allVoices|, r.sustainOn;
  }

  /**
   * Two pointerdowns for the same pointer id: the second replaces the
   * binding, so after the pointerup and a full pedal press and lift the
   * first voice is still live, held by no input.
   */
  method PointerRebindLeavesVoice() returns (live: nat, held: nat)
    ensures live == 1 && held == 0
  {
    var r := new Registry();
    r.HandleKeyPointerDown(Chord, Integral(0), 7);
    r.HandleKeyPointerDown(Melody, Integral(6), 7);
    r.HandleKeyPointerUp(7);
    r.SetSustain(true);
    r.SetSustain(false);
    live, held := |r.allVoices|, |r.pointerVoices|;
  }
}
