/**
 * The rules the two options pages (settings-script.js for Chrome,
 * firefox/settings-script.js for Firefox) apply to the settings record and to
 * their own counters, as functions of values. The page classes call them.
 */
module SettingsRules {
  import opened Values
  import opened Text

  /** The new-tab page's starting record (script.js and firefox/script.js). */
  const NewTabDefaults: Record := map[
    "blurEnabled" := Bool(true),
    "wallpaperBlur" := Bool(false),
    "customBg" := Null,
    "bannerHidden" := Bool(false),
    "tetoMode" := Bool(false),
    "bgDisplayMode" := Str("cover"),
    "customColorEnabled" := Bool(false),
    "customColor" := Str("#68c3ff")]

  /** The Firefox options page's starting record: no `bannerHidden`, plus `tetoMikuMode`. */
  const FirefoxDefaults: Record := map[
    "blurEnabled" := Bool(true),
    "wallpaperBlur" := Bool(false),
    "customBg" := Null,
    "tetoMode" := Bool(false),
    "tetoMikuMode" := Bool(false),
    "bgDisplayMode" := Str("cover"),
    "customColorEnabled" := Bool(false),
    "customColor" := Str("#68c3ff")]

  /** The Chrome options page's starting record. */
  const ChromeDefaults: Record := map[
    "blurEnabled" := Bool(false),
    "wallpaperBlur" := Bool(false),
    "customBg" := Null]

  // ---------------------------------------------------------------- uploads

  /** The part of a picked `File` the upload handler reads. */
  datatype UploadFile = UploadFile(mimeType: string, size: nat)

  /** 5 MiB, `5 * 1024 * 1024` bytes. */
  const MaxUploadBytes: nat := 5 * 1024 * 1024

  datatype UploadCheck = NoFile | NotAnImage | TooLarge | Accepted

  /**
   * `handleImageUpload`'s checks, in their order: no file, a MIME type that
   * does not start with `image/`, more than 5 MiB. Only a file passing all
   * three is read.
   */
  function CheckUpload(file: Option<UploadFile>): (r: UploadCheck)
    ensures r == Accepted <==> file.Some? && StartsWith(file.value.mimeType, "image/") && file.value.size <= MaxUploadBytes
    ensures r == NoFile <==> file.None?
    ensures r == NotAnImage <==> file.Some? && !StartsWith(file.value.mimeType, "image/")
    ensures r == TooLarge <==> file.Some? && StartsWith(file.value.mimeType, "image/") && file.value.size > MaxUploadBytes
  {
    if file.None? then NoFile
    else if !StartsWith(file.value.mimeType, "image/") then NotAnImage
    else if file.value.size > MaxUploadBytes then TooLarge
    else Accepted
  }

  /** The limit is inclusive: exactly 5 MiB passes, one byte more does not. */
  lemma UploadLimitInclusive(mimeType: string)
    requires StartsWith(mimeType, "image/")
    ensures CheckUpload(Some(UploadFile(mimeType, 5242880))) == Accepted
    ensures CheckUpload(Some(UploadFile(mimeType, 5242881))) == TooLarge
  {
  }

  // ---------------------------------------------------------- version clicks

  /** What a click on the version number does. */
  datatype ClickEffect = Ignored | Counted | Pulse | Unlock

  /** `versionClickCount` and `tetoModeUnlocked`. */
  datatype ClickState = ClickState(count: nat, unlocked: bool)

  const ClicksToUnlock: nat := 5

  /**
   * One click: ignored once unlocked; otherwise counted, and the fifth
   * counted click unlocks, the third and fourth only animate.
   */
  function VersionClick(st: ClickState): (r: (ClickState, ClickEffect))
    ensures st.unlocked ==> r == (st, Ignored)
    ensures !st.unlocked ==> r.0.count == st.count + 1
    ensures r.1 == Unlock <==> !st.unlocked && st.count + 1 == ClicksToUnlock
    ensures r.0.unlocked <==> st.unlocked || r.1 == Unlock
    ensures r.1 == Pulse <==> !st.unlocked && st.count + 1 >= 3 && st.count + 1 != ClicksToUnlock
  {
    if st.unlocked then (st, Ignored)
    else
      var count := st.count + 1;
      if count == ClicksToUnlock then (ClickState(count, true), Unlock)
      else if count >= 3 then (ClickState(count, false), Pulse)
      else (ClickState(count, false), Counted)
  }

  /** `n` clicks in a row, with the effect of each. */
  function Clicks(st: ClickState, n: nat): (ClickState, seq<ClickEffect>)
    decreases n
  {
    if n == 0 then (st, [])
    else
      var (next, effect) := VersionClick(st);
      var (last, effects) := Clicks(next, n - 1);
      (last, [effect] + effects)
  }

  /** The effect the `i`-th click (from 0) of a fresh page has. */
  function FreshClickEffect(i: nat): ClickEffect {
    if i < 2 then Counted else if i < 4 then Pulse else if i == 4 then Unlock else Ignored
  }

  /**
   * Clicks on a page that starts counting at `count` below five, not
   * unlocked: the count climbs to five and stops there, unlocked, and each
   * click's effect is the one for its position.
   */
  lemma {:induction false} ClicksFrom(count: nat, n: nat)
    requires count < ClicksToUnlock
    ensures var (st, effects) := Clicks(ClickState(count, false), n);
      && |effects| == n
      && st == (if count + n >= ClicksToUnlock then ClickState(ClicksToUnlock, true) else ClickState(count + n, false))
      && forall i :: 0 <= i < n ==> effects[i] == FreshClickEffect(count + i)
    decreases n
  {
    if n > 0 {
      var (next, effect) := VersionClick(ClickState(count, false));
      if count + 1 == ClicksToUnlock {
        AllIgnored(next, n - 1);
      } else {
        ClicksFrom(count + 1, n - 1);
      }
      var (last, rest) := Clicks(next, n - 1);
      assert Clicks(ClickState(count, false), n) == (last, [effect] + rest);
    }
  }

  /** Once unlocked, every further click is ignored and changes nothing. */
  lemma {:induction false} AllIgnored(st: ClickState, n: nat)
    requires st.unlocked
    ensures Clicks(st, n).0 == st
    ensures |Clicks(st, n).1| == n && forall i :: 0 <= i < n ==> Clicks(st, n).1[i] == Ignored
    decreases n
  {
    if n > 0 {
      AllIgnored(st, n - 1);
    }
  }

  /** From a fresh page, teto mode is unlocked after n clicks exactly when n is at least five, and exactly once. */
  lemma FiveClicksUnlock(n: nat)
    ensures Clicks(ClickState(0, false), n).0.unlocked <==> n >= ClicksToUnlock
    ensures |Clicks(ClickState(0, false), n).1| == n
    ensures forall i :: 0 <= i < n ==> (Clicks(ClickState(0, false), n).1[i] == Unlock <==> i == 4)
  {
    ClicksFrom(0, n);
  }

  // ----------------------------------------------------------- update check

  /** The outcome of fetching the repository's manifest. */
  datatype RemoteManifest = FetchFailed | Manifest(version: Option<string>)

  /**
   * `checkForUpdates`: the banner appears when the remote manifest arrived
   * and its version differs from the local one (a missing remote version
   * counts as different). Plain inequality: an older remote also shows it.
   */
  function UpdateAvailable(localVersion: string, remote: RemoteManifest): (show: bool)
    ensures show <==> remote.Manifest? && remote.version != Some(localVersion)
  {
    match remote
    case FetchFailed => false
    case Manifest(v) => v.None? || v.value != localVersion
  }

  /** Swapping local and remote versions does not change whether the banner shows. */
  lemma UpdateAvailableSymmetric(a: string, b: string)
    ensures UpdateAvailable(a, Manifest(Some(b))) == UpdateAvailable(b, Manifest(Some(a)))
    ensures UpdateAvailable(a, Manifest(Some(b))) <==> a != b
  {
  }

  // -------------------------------------------------------------- teto modes

  /** Mixed mode is only ever on together with teto mode. */
  predicate TetoConsistent(settings: Record) {
    Flag(settings, "tetoMikuMode") ==> Flag(settings, "tetoMode")
  }

  /** The teto toggle's handler: set `tetoMode`; turning it off also turns mixed mode off. */
  function ToggleTeto(settings: Record, checked: bool): (r: Record)
    ensures TetoConsistent(r)
    ensures "tetoMode" in r && r["tetoMode"] == Bool(checked)
    ensures checked ==> r == settings["tetoMode" := Bool(true)]
    ensures !checked ==> r == settings["tetoMode" := Bool(false)]["tetoMikuMode" := Bool(false)]
  {
    var r := settings["tetoMode" := Bool(checked)];
    if !checked then r["tetoMikuMode" := Bool(false)] else r
  }

  /**
   * `updateTetoMikuToggleState`: the mixed toggle is disabled exactly when
   * teto mode is off, and then mixed mode is forced off.
   */
  function TetoMikuToggleState(settings: Record): (r: (Record, bool))
    ensures TetoConsistent(r.0)
    ensures r.1 <==> !Flag(settings, "tetoMode")
    ensures Flag(r.0, "tetoMode") <==> Flag(settings, "tetoMode")
    ensures Flag(settings, "tetoMode") ==> r.0 == settings
    ensures !Flag(settings, "tetoMode") ==> "tetoMikuMode" in r.0 && r.0["tetoMikuMode"] == Bool(false)
    ensures forall k :: k in settings && k != "tetoMikuMode" ==> k in r.0 && r.0[k] == settings[k]
  {
    if Flag(settings, "tetoMode") then (settings, false)
    else (settings["tetoMikuMode" := Bool(false)], true)
  }

  /** Applying the toggle state a second time changes nothing. */
  lemma TetoMikuToggleStateIdempotent(settings: Record)
    ensures TetoMikuToggleState(TetoMikuToggleState(settings).0) == TetoMikuToggleState(settings)
  {
    if !Flag(settings, "tetoMode") {
      var off := settings["tetoMikuMode" := Bool(false)];
      assert off["tetoMikuMode" := Bool(false)] == off;
    }
  }

  /**
   * What `updateTetoMikuToggleState` leaves behind: the mixed toggle disabled
   * exactly when teto mode is off, and then `tetoMikuMode` held as false.
   */
  predicate ToggleSettled(settings: Record, disabled: bool) {
    && disabled == !Flag(settings, "tetoMode")
    && (disabled ==> "tetoMikuMode" in settings && settings["tetoMikuMode"] == Bool(false))
  }

  /** The toggle state always settles, and settled modes are consistent. */
  lemma ToggleStateSettles(settings: Record)
    ensures ToggleSettled(TetoMikuToggleState(settings).0, TetoMikuToggleState(settings).1)
    ensures forall d :: ToggleSettled(settings, d) ==> TetoConsistent(settings)
  {
  }

  /** On a settled page, `updateUI`'s call of the toggle update changes nothing. */
  lemma SettledIsFixedPoint(settings: Record, disabled: bool)
    requires ToggleSettled(settings, disabled)
    ensures TetoMikuToggleState(settings) == (settings, disabled)
  {
    if disabled {
      assert settings["tetoMikuMode" := Bool(false)] == settings;
    }
  }

  /**
   * The teto toggle's handler leaves a settled page: the saved record is the
   * one `updateTetoMikuToggleState` then keeps, and the mixed toggle is
   * enabled exactly when teto mode was switched on.
   */
  lemma ToggleTetoSettles(settings: Record, checked: bool)
    ensures ToggleSettled(ToggleTeto(settings, checked), !checked)
    ensures TetoMikuToggleState(ToggleTeto(settings, checked)) == (ToggleTeto(settings, checked), !checked)
  {
    SettledIsFixedPoint(ToggleTeto(settings, checked), !checked);
  }

  /** Setting any field but the two mode flags keeps a page settled. */
  lemma SetFieldKeepsSettled(settings: Record, disabled: bool, name: string, v: Value)
    requires ToggleSettled(settings, disabled)
    requires name != "tetoMode" && name != "tetoMikuMode"
    ensures ToggleSettled(settings[name := v], disabled)
  {
  }

  // ------------------------------------------------------------------ loading

  /**
   * Firefox `loadSettings`: the saved record is spread over the current one
   * only when it has at least one property.
   */
  function MergeNonEmpty(current: Record, saved: Record): (r: Record)
    ensures |saved| == 0 ==> r == current
    ensures forall k :: k in saved ==> k in r && r[k] == saved[k]
    ensures forall k :: k in current && k !in saved ==> k in r && r[k] == current[k]
    ensures r.Keys == current.Keys + saved.Keys
  {
    if |saved| > 0 then Spread(current, saved) else current
  }

  /**
   * Chrome `loadSettings` in settings-script.js: a stored record, even an
   * empty one, replaces the in-memory record wholesale.
   */
  function ReplaceIfStored(current: Record, stored: Option<Record>): (r: Record)
    ensures stored.Some? ==> r == stored.value
    ensures stored.None? ==> r == current
  {
    if stored.Some? then stored.value else current
  }

  /**
   * The loaders differ on an empty stored record: the Chrome options page
   * drops all its defaults, the Firefox options page keeps them, and the
   * new-tab page keeps its own.
   */
  lemma EmptyStoredRecord()
    ensures ReplaceIfStored(ChromeDefaults, Some(map[])) == map[]
    ensures ReplaceIfStored(ChromeDefaults, Some(map[])) != ChromeDefaults
    ensures MergeNonEmpty(FirefoxDefaults, map[]) == FirefoxDefaults
    ensures Spread(NewTabDefaults, map[]) == NewTabDefaults
  {
    assert "blurEnabled" in ChromeDefaults;
    SpreadEmpty(NewTabDefaults);
  }
}
