/** The remote-control page: the one-shot decoder probe, keyboard events
    forwarded to the device's keyboard, the keyboard lock taken while the page
    is mounted, and the predicates that decide which deployment stage the
    connecting dialog shows and whether the full-screen hint is visible. */
module Scrcpy {
  import opened Outcomes
  import opened AppState

  // ---------------------------------------------------------------------
  // Decoders
  // ---------------------------------------------------------------------

  datatype Decoder = Decoder(key: string, name: string)

  const WebCodecs := Decoder("webcodecs", "WebCodecs")

  /** The decoder list after the probe: WebCodecs goes in front only when
      the list holds exactly one decoder and the browser supports WebCodecs. */
  function WithWebCodecs(decoders: seq<Decoder>, supported: bool): (r: seq<Decoder>)
    ensures |decoders| == 1 && supported ==> |r| == 2 && r[0] == WebCodecs && r[1..] == decoders
    ensures !(|decoders| == 1 && supported) ==> r == decoders
  {
    if |decoders| == 1 && supported then [WebCodecs] + decoders else decoders
  }

  /** Running the probe again adds nothing. */
  lemma WithWebCodecsOnce(decoders: seq<Decoder>, supported: bool)
    ensures WithWebCodecs(WithWebCodecs(decoders, supported), supported) == WithWebCodecs(decoders, supported)
  {
  }

  /** `SETTING_STATE`, reduced to its decoder list. */
  class SettingState {
    var decoders: seq<Decoder>

    constructor (decoders: seq<Decoder>)
      ensures this.decoders == decoders
    {
      this.decoders := decoders;
    }

    method DetectWebCodecs(supported: bool)
      modifies this
      ensures decoders == WithWebCodecs(old(decoders), supported)
    {
      if |decoders| == 1 && supported {
        decoders := [WebCodecs] + decoders;
      }
    }
  }

  // ---------------------------------------------------------------------
  // Keyboard events
  // ---------------------------------------------------------------------

  /** A call on the scrcpy keyboard injector. */
  datatype KeyCall = Down(code: string) | Up(code: string) | Reset

  /** `"keydown"` presses the key; every other event type releases it. */
  function KeyCallFor(eventType: string, code: string): (k: KeyCall)
    ensures !k.Reset? && k.code == code
    ensures k.Down? <==> eventType == "keydown"
  {
    if eventType == "keydown" then Down(code) else Up(code)
  }

  /** `STATE`, reduced to what the key handlers use: whether a scrcpy client
      and a keyboard injector exist, and the calls made on the injector. */
  class ScrcpyState {
    var hasClient: bool
    var hasKeyboard: bool
    var keyboardCalls: seq<KeyCall>

    constructor (hasClient: bool, hasKeyboard: bool)
      ensures this.hasClient == hasClient && this.hasKeyboard == hasKeyboard
      ensures keyboardCalls == []
    {
      this.hasClient := hasClient;
      this.hasKeyboard := hasKeyboard;
      keyboardCalls := [];
    }

    /** `handleKeyEvent`: without a client the event is left alone. With
        one, the event is consumed and forwarded as a press or a release; a
        missing injector makes the non-null assertion throw. */
    method HandleKeyEvent(eventType: string, code: string) returns (consumed: bool, failure: Option<Error>)
      modifies this`keyboardCalls
      ensures consumed == hasClient
      ensures failure.Some? <==> hasClient && !hasKeyboard
      ensures keyboardCalls == old(keyboardCalls) +
        (if hasClient && hasKeyboard then [KeyCallFor(eventType, code)] else [])
    {
      consumed, failure := false, None;
      if !hasClient {
        return;
      }
      consumed := true;
      if !hasKeyboard {
        failure := Some(TypeError("STATE.keyboard"));
        return;
      }
      keyboardCalls := keyboardCalls + [KeyCallFor(eventType, code)];
    }

    /** `handleBlur`: with a client, release every held key. */
    method HandleBlur()
      modifies this`keyboardCalls
      ensures keyboardCalls == old(keyboardCalls) + (if hasClient && hasKeyboard then [Reset] else [])
    {
      if !hasClient {
        return;
      }
      if hasKeyboard {
        keyboardCalls := keyboardCalls + [Reset];
      }
    }
  }

  // ---------------------------------------------------------------------
  // Page effects: decoder probe, keyboard lock, blur listener
  // ---------------------------------------------------------------------

  /** The effects of the remote-control page. `locks` and `unlocks` count
      the calls on `navigator.keyboard`. */
  class ScrcpyPage {
    const settings: SettingState
    var mounted: bool
    var keyboardLockEnabled: bool
    var lockCleanup: bool      // the lock effect returned a cleanup
    var listeningForBlur: bool
    var locks: nat
    var unlocks: nat

    /** Every lock is released by exactly one unlock, the one its cleanup
        makes; while mounted, the lock is enabled exactly when it was taken. */
    ghost predicate Valid()
      reads this
    {
      locks == unlocks + (if lockCleanup then 1 else 0) &&
      (lockCleanup ==> mounted) && (listeningForBlur <==> mounted) &&
      (mounted ==> (keyboardLockEnabled <==> lockCleanup))
    }

    constructor (settings: SettingState)
      ensures this.settings == settings && !mounted && Valid()
      ensures !keyboardLockEnabled && locks == 0 && unlocks == 0
    {
      this.settings := settings;
      mounted, keyboardLockEnabled, lockCleanup, listeningForBlur := false, false, false, false;
      locks, unlocks := 0, 0;
    }

    /** Mounting runs the three effects: the decoder probe, the keyboard lock
        (taken only when the browser exposes `navigator.keyboard`) and the
        blur listener. */
    method Mount(webCodecsSupported: bool, keyboardApi: bool)
      requires Valid() && !mounted
      modifies this, settings
      ensures Valid() && mounted
      ensures settings.decoders == WithWebCodecs(old(settings.decoders), webCodecsSupported)
      ensures keyboardLockEnabled == keyboardApi
      ensures locks == old(locks) + (if keyboardApi then 1 else 0) && unlocks == old(unlocks)
      ensures listeningForBlur
    {
      settings.DetectWebCodecs(webCodecsSupported);
      keyboardLockEnabled := false;
      if keyboardApi {
        locks := locks + 1;
        keyboardLockEnabled := true;
        lockCleanup := true;
      }
      listeningForBlur := true;
      mounted := true;
    }

    /** Unmounting runs the cleanups: unlock if a lock was taken, and stop
        listening for blur. Afterwards every lock has been released. */
    method Unmount()
      requires Valid() && mounted
      modifies this
      ensures Valid() && !mounted && !listeningForBlur
      ensures locks == old(locks) && unlocks == old(unlocks) + (if old(lockCleanup) then 1 else 0)
      ensures locks == unlocks
      ensures keyboardLockEnabled == old(keyboardLockEnabled)
    {
      if lockCleanup {
        unlocks := unlocks + 1;
        lockCleanup := false;
      }
      listeningForBlur := false;
      mounted := false;
    }
  }

  // ---------------------------------------------------------------------
  // Connecting dialog and full-screen hint
  // ---------------------------------------------------------------------

  /** The download bar's fraction: downloaded over total once the total is
      known (nonzero), otherwise none (an indeterminate bar). */
  function DownloadFraction(downloaded: nat, total: nat): (f: Option<real>)
    ensures f.Some? <==> total != 0
    ensures f.Some? ==> f.value * total as real == downloaded as real
    ensures f.Some? && downloaded <= total ==> 0.0 <= f.value <= 1.0
  {
    if total != 0 then
      FractionBounds(downloaded as real, total as real);
      Some(downloaded as real / total as real)
    else None
  }

  /** A part of a positive whole, divided by the whole, lies in [0, 1]. */
  lemma FractionBounds(part: real, whole: real)
    requires 0.0 <= part && 0.0 < whole
    ensures 0.0 <= part / whole
    ensures part <= whole ==> part / whole <= 1.0
  {
    var q := part / whole;
    assert q * whole == part;
  }

  /** A fraction is full exactly when the part equals the positive whole. */
  lemma FractionFull(part: real, whole: real)
    requires 0.0 < whole
    ensures part / whole == 1.0 <==> part == whole
  {
    var q := part / whole;
    assert q * whole == part;
  }

  /** The push bar's fraction, computed without a guard: dividing by a zero
      total gives no finite value (NaN or Infinity in the page). */
  function UploadFraction(uploaded: nat, total: nat): (f: Option<real>)
    ensures f.Some? <==> total != 0
    ensures f.Some? ==> f.value * total as real == uploaded as real
  {
    if total != 0 then Some(uploaded as real / total as real) else None
  }

  /** The push stage is hidden until the whole server has been downloaded:
      it is shown exactly when the download bar is full. */
  predicate PushProgressHidden(downloaded: nat, total: nat)
    ensures !PushProgressHidden(downloaded, total) <==> DownloadFraction(downloaded, total) == Some(1.0)
  {
    if total != 0 then FractionFull(downloaded as real, total as real); downloaded != total
    else true
  }

  /** The start stage is hidden until the whole server has been pushed: it
      is shown exactly when the push bar is full. */
  predicate StartProgressHidden(uploaded: nat, total: nat)
    ensures !StartProgressHidden(uploaded, total) <==> UploadFraction(uploaded, total) == Some(1.0)
  {
    if total != 0 then FractionFull(uploaded as real, total as real); uploaded != total
    else true
  }

  /** When the push bar is shown, its fraction is a finite number. */
  lemma ShownPushFractionFinite(downloaded: nat, uploaded: nat, total: nat)
    requires !PushProgressHidden(downloaded, total)
    ensures UploadFraction(uploaded, total).Some?
  {
  }

  /** If the push only starts once the download is complete, the start stage
      is never shown before the push stage. */
  lemma StagesShownInOrder(downloaded: nat, uploaded: nat, total: nat)
    requires uploaded != 0 ==> downloaded == total
    ensures !StartProgressHidden(uploaded, total) ==> !PushProgressHidden(downloaded, total)
  {
  }

  /** The local-storage key of the full-screen hint's dismissal. */
  const HintHiddenKey := "scrcpy-hint-hidden"

  /** The full-screen hint's dismissal. `hintHidden` is the value under
      `HintHiddenKey`, which the page reads at start and writes back. */
  class FullscreenHint {
    var hintHidden: string

    /** The value stored by an earlier visit, or "false" when there is none. */
    constructor (stored: Option<string>)
      ensures stored.Some? ==> hintHidden == stored.value
      ensures stored.None? ==> hintHidden == "false"
    {
      hintHidden := if stored.Some? then stored.value else "false";
    }

    /** The hint bar is rendered: keyboard lock enabled, the view in full
        screen, and the hint not dismissed. */
    predicate Visible(keyboardLockEnabled: bool, isFullScreen: bool)
      reads this
      ensures Visible(keyboardLockEnabled, isFullScreen) ==> keyboardLockEnabled && isFullScreen
      ensures hintHidden == "true" ==> !Visible(keyboardLockEnabled, isFullScreen)
    {
      keyboardLockEnabled && isFullScreen && hintHidden != "true"
    }

    /** The "do not show again" link: the hint is never shown afterwards. */
    method Dismiss()
      modifies this
      ensures hintHidden == "true"
      ensures forall lock: bool, fullScreen: bool :: !Visible(lock, fullScreen)
    {
      hintHidden := "true";
    }
  }

  /** The start button is disabled while there is no adb connection. */
  predicate StartButtonDisabled(adb: Option<Adb>)
  {
    adb.None?
  }

  /** A dismissal outlives the page: a hint created from the value a
      dismissed hint stored stays hidden whatever the lock and full-screen
      state, while a first visit shows it in full screen with the lock on. */
  method DismissalPersists() returns (first: FullscreenHint, later: FullscreenHint)
    ensures first.Visible(true, true)
    ensures forall lock: bool, fullScreen: bool :: !later.Visible(lock, fullScreen)
  {
    first := new FullscreenHint(None);
    var dismissed := new FullscreenHint(None);
    dismissed.Dismiss();
    later := new FullscreenHint(Some(dismissed.hintHidden));
  }
}
