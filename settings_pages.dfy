/**
 * The two options pages. The Firefox page (firefox/settings-script.js) keeps
 * its record in `MikuStorage`'s IndexedDB database; the Chrome page
 * (settings-script.js) keeps it in the `storage.local` area the new-tab page
 * reads.
 */
module SettingsPages {
  import opened Values
  import opened SettingsRules
  import opened Storage
  import opened Favicon
  import opened BrowserLocal

  /** Firefox `loadSettings`' merge of what `getSettings()` returned. */
  function FirefoxLoaded(current: Record, saved: Value): Record {
    match saved
    case Obj(fields) => MergeNonEmpty(current, fields)
    case _ => current
  }

  const UnlockKey: string := "tetoModeUnlocked"

  /** `getOtherData('tetoModeUnlocked')` resolves to something truthy. */
  predicate UnlockedIn(db: Db)
    requires HasAllStores(db)
  {
    var v := OtherDataIn(db, UnlockKey);
    v.Some? && Truthy(v.value)
  }

  class FirefoxSettingsPage {
    var settings: Record
    var versionClickCount: nat
    var tetoModeUnlocked: bool
    /** `tetoMikuModeToggle.disabled` */
    var tetoMikuToggleDisabled: bool
    /** `window.MikuStorage` */
    const store: MikuStorage

    ghost predicate Valid()
      reads this, store
    {
      store.Valid()
    }

    /** The mixed toggle agrees with the record, as `updateTetoMikuToggleState` leaves it. */
    predicate Settled()
      reads this
    {
      ToggleSettled(settings, tetoMikuToggleDisabled)
    }

    /** The page as its script starts: the defaults, nothing counted, the mixed toggle disabled. */
    constructor(store: MikuStorage)
      requires store.Valid()
      ensures Valid() && Settled()
      ensures settings == FirefoxDefaults && versionClickCount == 0 && !tetoModeUnlocked
      ensures this.store == store
    {
      settings := FirefoxDefaults;
      versionClickCount := 0;
      tetoModeUnlocked := false;
      tetoMikuToggleDisabled := true;
      this.store := store;
    }

    /** `loadSettings`: a saved record with at least one property is spread over the current one. */
    method LoadSettings()
      requires Valid()
      modifies this, store
      ensures Valid() && store.isOpen && store.stores == Upgrade(old(store.stores))
      ensures settings == FirefoxLoaded(old(settings), SettingsIn(store.stores))
      ensures versionClickCount == old(versionClickCount) && tetoModeUnlocked == old(tetoModeUnlocked)
      ensures tetoMikuToggleDisabled == old(tetoMikuToggleDisabled)
    {
      var saved := store.GetSettings();
      settings := FirefoxLoaded(settings, saved);
    }

    /** `checkTetoModeUnlocked`: a truthy stored flag unlocks; nothing ever locks again. */
    method CheckTetoModeUnlocked()
      requires Valid()
      modifies this, store
      ensures Valid() && store.isOpen && store.stores == Upgrade(old(store.stores))
      ensures tetoModeUnlocked == (old(tetoModeUnlocked) || UnlockedIn(store.stores))
      ensures settings == old(settings) && versionClickCount == old(versionClickCount)
      ensures tetoMikuToggleDisabled == old(tetoMikuToggleDisabled)
    {
      var unlocked := store.GetOtherData(UnlockKey);
      if unlocked.Some? && Truthy(unlocked.value) {
        tetoModeUnlocked := true;
      }
    }

    /** `updateTetoMikuToggleState`, which `updateUI` also runs. */
    method UpdateTetoMikuToggleState()
      modifies this
      ensures Settled()
      ensures (settings, tetoMikuToggleDisabled) == TetoMikuToggleState(old(settings))
      ensures old(Settled()) ==> settings == old(settings) && tetoMikuToggleDisabled == old(tetoMikuToggleDisabled)
      ensures versionClickCount == old(versionClickCount) && tetoModeUnlocked == old(tetoModeUnlocked)
    {
      if old(Settled()) {
        SettledIsFixedPoint(settings, tetoMikuToggleDisabled);
      }
      ToggleStateSettles(settings);
      var (next, disabled) := TetoMikuToggleState(settings);
      settings := next;
      tetoMikuToggleDisabled := disabled;
    }

    /**
     * The DOMContentLoaded handler's state part: open the database, load the
     * record, read the unlock flag, then settle the mixed toggle.
     */
    method Initialize()
      requires Valid()
      modifies this, store
      ensures Valid() && Settled() && store.isOpen
      ensures store.stores == Upgrade(old(store.stores))
      ensures settings == TetoMikuToggleState(FirefoxLoaded(old(settings), SettingsIn(store.stores))).0
      ensures tetoModeUnlocked == (old(tetoModeUnlocked) || UnlockedIn(store.stores))
      ensures versionClickCount == old(versionClickCount)
    {
      store.Init();
      ghost var db := store.stores;
      UpgradeOfOpen(db);
      LoadSettings();
      assert store.stores == db;
      CheckTetoModeUnlocked();
      assert store.stores == db;
      UpdateTetoMikuToggleState();
    }

    /** `saveSettings`: the record goes to the `settings` store, and reads back as it is. */
    method SaveSettings()
      requires Valid()
      modifies store
      ensures Valid() && store.isOpen
      ensures store.stores == SaveSettingsTo(Upgrade(old(store.stores)), Obj(settings))
      ensures SettingsIn(store.stores) == Obj(settings)
    {
      store.SaveSettings(Obj(settings));
      SettingsRoundTrip(Upgrade(old(store.stores)), Obj(settings));
    }

    /** A handler that sets one field other than the two mode flags, then saves. */
    method SetField(name: string, v: Value)
      requires Valid()
      requires name != "tetoMode" && name != "tetoMikuMode"
      modifies this, store
      ensures Valid() && (old(Settled()) ==> Settled())
      ensures settings == old(settings)[name := v]
      ensures store.stores == SaveSettingsTo(Upgrade(old(store.stores)), Obj(settings))
      ensures SettingsIn(store.stores) == Obj(settings)
      ensures versionClickCount == old(versionClickCount) && tetoModeUnlocked == old(tetoModeUnlocked)
      ensures tetoMikuToggleDisabled == old(tetoMikuToggleDisabled)
    {
      if Settled() {
        SetFieldKeepsSettled(settings, tetoMikuToggleDisabled, name, v);
      }
      settings := settings[name := v];
      SaveSettings();
    }

    /** The `blurToggle` handler. */
    method SetBlur(checked: bool)
      requires Valid()
      modifies this, store
      ensures Valid() && (old(Settled()) ==> Settled())
      ensures settings == old(settings)["blurEnabled" := Bool(checked)]
      ensures store.stores == SaveSettingsTo(Upgrade(old(store.stores)), Obj(settings))
      ensures SettingsIn(store.stores) == Obj(settings)
      ensures versionClickCount == old(versionClickCount) && tetoModeUnlocked == old(tetoModeUnlocked)
      ensures tetoMikuToggleDisabled == old(tetoMikuToggleDisabled)
    {
      SetField("blurEnabled", Bool(checked));
    }

    /** The `wallpaperBlurToggle` handler. */
    method SetWallpaperBlur(checked: bool)
      requires Valid()
      modifies this, store
      ensures Valid() && (old(Settled()) ==> Settled())
      ensures settings == old(settings)["wallpaperBlur" := Bool(checked)]
      ensures store.stores == SaveSettingsTo(Upgrade(old(store.stores)), Obj(settings))
      ensures SettingsIn(store.stores) == Obj(settings)
      ensures versionClickCount == old(versionClickCount) && tetoModeUnlocked == old(tetoModeUnlocked)
      ensures tetoMikuToggleDisabled == old(tetoMikuToggleDisabled)
    {
      SetField("wallpaperBlur", Bool(checked));
    }

    /** The `bgDisplayMode` select's handler. */
    method SetDisplayMode(value: string)
      requires Valid()
      modifies this, store
      ensures Valid() && (old(Settled()) ==> Settled())
      ensures settings == old(settings)["bgDisplayMode" := Str(value)]
      ensures store.stores == SaveSettingsTo(Upgrade(old(store.stores)), Obj(settings))
      ensures SettingsIn(store.stores) == Obj(settings)
      ensures versionClickCount == old(versionClickCount) && tetoModeUnlocked == old(tetoModeUnlocked)
      ensures tetoMikuToggleDisabled == old(tetoMikuToggleDisabled)
    {
      SetField("bgDisplayMode", Str(value));
    }

    /** The `customColorToggle` handler. */
    method SetCustomColorEnabled(checked: bool)
      requires Valid()
      modifies this, store
      ensures Valid() && (old(Settled()) ==> Settled())
      ensures settings == old(settings)["customColorEnabled" := Bool(checked)]
      ensures store.stores == SaveSettingsTo(Upgrade(old(store.stores)), Obj(settings))
      ensures SettingsIn(store.stores) == Obj(settings)
      ensures versionClickCount == old(versionClickCount) && tetoModeUnlocked == old(tetoModeUnlocked)
      ensures tetoMikuToggleDisabled == old(tetoMikuToggleDisabled)
    {
      SetField("customColorEnabled", Bool(checked));
    }

    /** The colour picker's `input` handler. */
    method SetCustomColor(value: string)
      requires Valid()
      modifies this, store
      ensures Valid() && (old(Settled()) ==> Settled())
      ensures settings == old(settings)["customColor" := Str(value)]
      ensures store.stores == SaveSettingsTo(Upgrade(old(store.stores)), Obj(settings))
      ensures SettingsIn(store.stores) == Obj(settings)
      ensures versionClickCount == old(versionClickCount) && tetoModeUnlocked == old(tetoModeUnlocked)
      ensures tetoMikuToggleDisabled == old(tetoMikuToggleDisabled)
    {
      SetField("customColor", Str(value));
    }

    /**
     * The teto toggle's handler: set teto mode (switching mixed mode off with
     * it), save, then settle the mixed toggle, which is enabled exactly when
     * teto mode was switched on. The settling changes nothing more, so the
     * saved record is the one the page keeps.
     */
    method SetTetoMode(checked: bool)
      requires Valid()
      modifies this, store
      ensures Valid() && Settled()
      ensures settings == ToggleTeto(old(settings), checked)
      ensures tetoMikuToggleDisabled == !checked
      ensures store.stores == SaveSettingsTo(Upgrade(old(store.stores)), Obj(settings))
      ensures SettingsIn(store.stores) == Obj(settings)
      ensures versionClickCount == old(versionClickCount) && tetoModeUnlocked == old(tetoModeUnlocked)
    {
      settings := ToggleTeto(settings, checked);
      SaveSettings();
      ToggleTetoSettles(old(settings), checked);
      UpdateTetoMikuToggleState();
    }

    /**
     * The mixed toggle's handler. A disabled checkbox fires no `change`
     * event, so it runs only while the toggle is enabled, i.e. teto mode is on.
     */
    method SetTetoMikuMode(checked: bool)
      requires Valid() && !tetoMikuToggleDisabled
      modifies this, store
      ensures Valid() && (old(Settled()) ==> Settled() && TetoConsistent(settings))
      ensures settings == old(settings)["tetoMikuMode" := Bool(checked)]
      ensures store.stores == SaveSettingsTo(Upgrade(old(store.stores)), Obj(settings))
      ensures SettingsIn(store.stores) == Obj(settings)
      ensures versionClickCount == old(versionClickCount) && tetoModeUnlocked == old(tetoModeUnlocked)
      ensures tetoMikuToggleDisabled == old(tetoMikuToggleDisabled)
    {
      settings := settings["tetoMikuMode" := Bool(checked)];
      SaveSettings();
    }

    /**
     * A click on the version number. The fifth counted click unlocks teto
     * mode and stores the flag for `checkTetoModeUnlocked` to find; no other
     * click touches the database.
     */
    method VersionClick() returns (effect: ClickEffect)
      requires Valid()
      modifies this, store
      ensures Valid()
      ensures (ClickState(versionClickCount, tetoModeUnlocked), effect) ==
              SettingsRules.VersionClick(ClickState(old(versionClickCount), old(tetoModeUnlocked)))
      ensures effect == Unlock ==>
        store.stores == SaveOtherDataTo(Upgrade(old(store.stores)), UnlockKey, Bool(true)) && UnlockedIn(store.stores)
      ensures effect != Unlock ==> store.stores == old(store.stores)
      ensures settings == old(settings) && tetoMikuToggleDisabled == old(tetoMikuToggleDisabled)
    {
      var (next, e) := SettingsRules.VersionClick(ClickState(versionClickCount, tetoModeUnlocked));
      versionClickCount := next.count;
      tetoModeUnlocked := next.unlocked;
      effect := e;
      if effect == Unlock {
        store.SaveOtherData(UnlockKey, Bool(true));
        OtherDataRoundTrip(Upgrade(old(store.stores)), UnlockKey, Bool(true));
      }
    }

    /**
     * `handleImageUpload`: a file passing the checks is read (as `dataUrl`),
     * stored as `customBg` and saved, then `updateUI` settles the toggle; a
     * refused file changes nothing.
     */
    method HandleImageUpload(file: Option<UploadFile>, dataUrl: string) returns (check: UploadCheck)
      requires Valid()
      modifies this, store
      ensures Valid()
      ensures check == CheckUpload(file)
      ensures check != Accepted ==>
        settings == old(settings) && store.stores == old(store.stores) && tetoMikuToggleDisabled == old(tetoMikuToggleDisabled)
      ensures check == Accepted ==>
        && Settled()
        && store.stores == SaveSettingsTo(Upgrade(old(store.stores)), Obj(old(settings)["customBg" := Str(dataUrl)]))
        && settings == TetoMikuToggleState(old(settings)["customBg" := Str(dataUrl)]).0
      ensures check == Accepted && old(Settled()) ==> settings == old(settings)["customBg" := Str(dataUrl)]
      ensures check == Accepted ==> SettingsIn(store.stores) == Obj(old(settings)["customBg" := Str(dataUrl)])
      ensures versionClickCount == old(versionClickCount) && tetoModeUnlocked == old(tetoModeUnlocked)
    {
      check := CheckUpload(file);
      if check == Accepted {
        SetField("customBg", Str(dataUrl));
        UpdateTetoMikuToggleState();
      }
    }

    /** `resetBackground`: back to random wallpapers and the default colour, saved; then `updateUI`. */
    method ResetBackground()
      requires Valid()
      modifies this, store
      ensures Valid() && Settled()
      ensures store.stores == SaveSettingsTo(Upgrade(old(store.stores)), Obj(old(settings)["customBg" := Null]["customColorEnabled" := Bool(false)]))
      ensures settings == TetoMikuToggleState(old(settings)["customBg" := Null]["customColorEnabled" := Bool(false)]).0
      ensures old(Settled()) ==> settings == old(settings)["customBg" := Null]["customColorEnabled" := Bool(false)]
      ensures SettingsIn(store.stores) == Obj(old(settings)["customBg" := Null]["customColorEnabled" := Bool(false)])
      ensures versionClickCount == old(versionClickCount) && tetoModeUnlocked == old(tetoModeUnlocked)
    {
      var before := settings;
      if Settled() {
        SetFieldKeepsSettled(before, tetoMikuToggleDisabled, "customBg", Null);
        SetFieldKeepsSettled(before["customBg" := Null], tetoMikuToggleDisabled, "customColorEnabled", Bool(false));
      }
      settings := settings["customBg" := Null]["customColorEnabled" := Bool(false)];
      SaveSettings();
      UpdateTetoMikuToggleState();
    }

    /** `clearImageCache`: both wallpaper caches emptied; the record and shortcuts untouched. */
    method ClearImageCache()
      requires Valid()
      modifies store
      ensures Valid()
      ensures store.stores == ClearAllImageCachesIn(Upgrade(old(store.stores)))
      ensures CachedImagesIn(store.stores, false) == Arr([]) && CachedImagesIn(store.stores, true) == Arr([])
      ensures SettingsIn(store.stores) == SettingsIn(Upgrade(old(store.stores)))
    {
      store.ClearAllImageCaches();
      ClearAllImageCachesEmptiesBoth(Upgrade(old(store.stores)));
    }

    /**
     * `clearFaviconCache` as written: it calls `MikuStorage.clearFaviconCache`,
     * which storage-db.js does not define, so the call throws, the failure
     * toast shows and the `favicon_` entries of `local` stay as they were.
     */
    method ClearFaviconCache(local: LocalStrings) returns (cleared: bool, remaining: LocalStrings)
      ensures !cleared && remaining == local
    {
      cleared := false;
      remaining := local;
    }
  }

  /**
   * What the button leaves and what it means to leave: a host whose icon is
   * stored keeps it after the button as written, and loses it under the
   * intended clearing.
   */
  lemma FaviconButtonDiscrepancy(local: LocalStrings, hostname: string)
    requires IsCached(local, hostname)
    ensures !IsCached(Favicon.ClearFaviconCache(local), hostname)
    ensures Favicon.ClearFaviconCache(local) != local
  {
    LookupAfterClearFetches(Some(Shortcuts.ParsedUrl("https:", hostname)), local);
    assert CacheKey(hostname) in local;
  }

  /** A user action on the Chrome options page, as its listener receives it. */
  datatype ChromeEvent =
    | BlurChanged(checked: bool)
    | WallpaperBlurChanged(checked: bool)
    | FilePicked(file: Option<UploadFile>, dataUrl: string)
    | ResetClicked

  /** The one record field a Chrome listener writes. */
  function ChromeField(e: ChromeEvent): string {
    match e
    case BlurChanged(_) => "blurEnabled"
    case WallpaperBlurChanged(_) => "wallpaperBlur"
    case FilePicked(_, _) => "customBg"
    case ResetClicked => "customBg"
  }

  /** The value a Chrome listener writes into its field. */
  function ChromeValue(e: ChromeEvent): Value {
    match e
    case BlurChanged(c) => Bool(c)
    case WallpaperBlurChanged(c) => Bool(c)
    case FilePicked(_, dataUrl) => Str(dataUrl)
    case ResetClicked => Null
  }

  /** Every listener saves, except the upload one refusing its file. */
  predicate ChromeSaves(e: ChromeEvent) {
    !e.FilePicked? || CheckUpload(e.file) == Accepted
  }

  /**
   * The record a Chrome listener leaves, and whether it saved it: every
   * listener saves except the upload one refusing its file, and none touches
   * a field but its own.
   */
  function ChromeHandled(settings: Record, e: ChromeEvent): (r: (Record, bool))
    ensures r.1 <==> ChromeSaves(e)
    ensures !r.1 ==> r.0 == settings
    ensures r.1 ==> ChromeField(e) in r.0 && r.0.Keys == settings.Keys + {ChromeField(e)}
    ensures r.1 ==> r.0[ChromeField(e)] == ChromeValue(e)
    ensures forall k :: k in settings && k != ChromeField(e) ==> r.0[k] == settings[k]
  {
    match e
    case BlurChanged(c) => (settings["blurEnabled" := Bool(c)], true)
    case WallpaperBlurChanged(c) => (settings["wallpaperBlur" := Bool(c)], true)
    case FilePicked(file, dataUrl) =>
      if CheckUpload(file) == Accepted then (settings["customBg" := Str(dataUrl)], true) else (settings, false)
    case ResetClicked => (settings["customBg" := Null], true)
  }

  /**
   * The page's record and the stored `settings` entry after the listeners
   * handle `events` in order. Either both are as they were or the entry
   * holds the page's own record, and refused uploads alone change neither;
   * `SavingEventStores` gives the converse.
   */
  function ChromeReplay(settings: Record, stored: Option<Record>, events: seq<ChromeEvent>): (r: (Record, Option<Record>))
    ensures r == (settings, stored) || r.1 == Some(r.0)
    ensures (forall i :: 0 <= i < |events| ==> !ChromeSaves(events[i])) ==> r == (settings, stored)
    decreases |events|
  {
    if events == [] then (settings, stored)
    else
      var (next, saved) := ChromeHandled(settings, events[0]);
      ChromeReplay(next, if saved then Some(next) else stored, events[1..])
  }

  /**
   * The Chrome options page as intended: the DOMContentLoaded handler loads
   * the stored record over the defaults, then each listener runs.
   */
  function ChromeSession(stored: Option<Record>, events: seq<ChromeEvent>): (r: Option<Record>)
    ensures (exists i :: 0 <= i < |events| && ChromeSaves(events[i])) ==>
      r == Some(ChromeReplay(ReplaceIfStored(ChromeDefaults, stored), stored, events).0)
    ensures (forall i :: 0 <= i < |events| ==> !ChromeSaves(events[i])) ==> r == stored
  {
    SomeSavingEventStores(ReplaceIfStored(ChromeDefaults, stored), stored, events);
    ChromeReplay(ReplaceIfStored(ChromeDefaults, stored), stored, events).1
  }

  lemma SomeSavingEventStores(settings: Record, stored: Option<Record>, events: seq<ChromeEvent>)
    ensures (exists i :: 0 <= i < |events| && ChromeSaves(events[i])) ==>
      var r := ChromeReplay(settings, stored, events); r.1 == Some(r.0)
  {
    if exists i :: 0 <= i < |events| && ChromeSaves(events[i]) {
      var i :| 0 <= i < |events| && ChromeSaves(events[i]);
      SavingEventStores(settings, stored, events, i);
    }
  }

  /** Once any listener has saved, the stored entry is the page's record at the end of the session. */
  lemma {:induction false} SavingEventStores(settings: Record, stored: Option<Record>, events: seq<ChromeEvent>, i: nat)
    requires i < |events| && ChromeSaves(events[i])
    ensures var r := ChromeReplay(settings, stored, events); r.1 == Some(r.0)
    decreases |events|
  {
    var (next, saved) := ChromeHandled(settings, events[0]);
    if i > 0 {
      assert events[1..][i - 1] == events[i];
      SavingEventStores(next, if saved then Some(next) else stored, events[1..], i - 1);
    }
  }

  /** Listeners writing other fields leave a field as it was. */
  lemma {:induction false} ReplayKeepsField(settings: Record, stored: Option<Record>, events: seq<ChromeEvent>, k: string)
    requires k in settings
    requires forall j :: 0 <= j < |events| ==> ChromeField(events[j]) != k
    ensures var r := ChromeReplay(settings, stored, events); k in r.0 && r.0[k] == settings[k]
    decreases |events|
  {
    if events != [] {
      var (next, saved) := ChromeHandled(settings, events[0]);
      assert ChromeField(events[0]) != k;
      forall j | 0 <= j < |events[1..]| ensures ChromeField(events[1..][j]) != k {
        assert events[1..][j] == events[j + 1];
      }
      ReplayKeepsField(next, if saved then Some(next) else stored, events[1..], k);
    }
  }

  /**
   * The last saving listener for a field decides it: after a session, the
   * field holds the value that listener wrote, and so does the stored entry.
   */
  lemma {:induction false} LastWriteWins(settings: Record, stored: Option<Record>, events: seq<ChromeEvent>, i: nat)
    requires i < |events| && ChromeSaves(events[i])
    requires forall j :: i < j < |events| ==> ChromeField(events[j]) != ChromeField(events[i])
    ensures var r := ChromeReplay(settings, stored, events);
      && ChromeField(events[i]) in r.0 && r.0[ChromeField(events[i])] == ChromeValue(events[i])
      && r.1 == Some(r.0)
    decreases |events|
  {
    var (next, saved) := ChromeHandled(settings, events[0]);
    var stored' := if saved then Some(next) else stored;
    SavingEventStores(settings, stored, events, i);
    if i == 0 {
      forall j | 0 <= j < |events[1..]| ensures ChromeField(events[1..][j]) != ChromeField(events[0]) {
        assert events[1..][j] == events[j + 1];
      }
      ReplayKeepsField(next, stored', events[1..], ChromeField(events[0]));
    } else {
      assert events[1..][i - 1] == events[i];
      forall j | i - 1 < j < |events[1..]| ensures ChromeField(events[1..][j]) != ChromeField(events[1..][i - 1]) {
        assert events[1..][j] == events[j + 1];
      }
      LastWriteWins(next, stored', events[1..], i - 1);
    }
  }

  /**
   * For the whole intended session: the stored entry holds, in each field,
   * the value its last saving listener wrote.
   */
  lemma SessionLastWriteWins(stored: Option<Record>, events: seq<ChromeEvent>, i: nat)
    requires i < |events| && ChromeSaves(events[i])
    requires forall j :: i < j < |events| ==> ChromeField(events[j]) != ChromeField(events[i])
    ensures var r := ChromeSession(stored, events);
      r.Some? && ChromeField(events[i]) in r.value && r.value[ChromeField(events[i])] == ChromeValue(events[i])
  {
    LastWriteWins(ReplaceIfStored(ChromeDefaults, stored), stored, events, i);
  }

  /** A session whose last action is the reset button stores a record without a custom background. */
  lemma {:induction false} ReplayEndingInReset(settings: Record, stored: Option<Record>, events: seq<ChromeEvent>)
    requires events != [] && events[|events| - 1] == ResetClicked
    ensures var r := ChromeReplay(settings, stored, events);
      r.1 == Some(r.0) && "customBg" in r.0 && r.0["customBg"] == Null
    decreases |events|
  {
    var (next, saved) := ChromeHandled(settings, events[0]);
    if |events| > 1 {
      assert events[1..][|events[1..]| - 1] == ResetClicked;
      ReplayEndingInReset(next, if saved then Some(next) else stored, events[1..]);
    }
  }

  /**
   * settings-script.js as written: the `}}` closing `showToast` at line 118
   * leaves one brace unmatched, so the script is rejected before it runs. No
   * listener is registered and nothing is loaded or saved, whatever the user
   * does.
   */
  function ChromeSessionAsWritten(stored: Option<Record>, events: seq<ChromeEvent>): (r: Option<Record>)
    ensures r == stored
  {
    stored
  }

  /** Toggling blur on a fresh profile: nothing is stored as written, the toggled defaults as intended. */
  lemma ChromeScriptDiscrepancy()
    ensures ChromeSessionAsWritten(None, [BlurChanged(true)]) == None
    ensures ChromeSession(None, [BlurChanged(true)]) == Some(ChromeDefaults["blurEnabled" := Bool(true)])
  {
    assert [BlurChanged(true)][1..] == [];
  }

  /** The Chrome options page: its record lives in the shared `storage.local` area. */
  class ChromeSettingsPage {
    var settings: Record
    const area: LocalArea

    /** The page as its script starts. */
    constructor(area: LocalArea)
      ensures settings == ChromeDefaults && this.area == area
    {
      settings := ChromeDefaults;
      this.area := area;
    }

    /** `loadSettings`: a stored record replaces the defaults wholesale. */
    method LoadSettings()
      modifies this
      ensures settings == ReplaceIfStored(old(settings), area.settings)
    {
      settings := ReplaceIfStored(settings, area.settings);
    }

    /** `saveSettings`: only the `settings` entry changes. */
    method SaveSettings()
      modifies area
      ensures area.settings == Some(settings)
      ensures area.shortcuts == old(area.shortcuts) && area.currentEngine == old(area.currentEngine)
      ensures area.strings == old(area.strings) && area.wallpapers == old(area.wallpapers)
    {
      area.settings := Some(settings);
    }

    /** The `blurToggle` handler. */
    method SetBlur(checked: bool)
      modifies this, area
      ensures settings == old(settings)["blurEnabled" := Bool(checked)] && area.settings == Some(settings)
      ensures area.shortcuts == old(area.shortcuts) && area.currentEngine == old(area.currentEngine)
      ensures area.strings == old(area.strings) && area.wallpapers == old(area.wallpapers)
    {
      settings := settings["blurEnabled" := Bool(checked)];
      SaveSettings();
    }

    /** The `wallpaperBlurToggle` handler. */
    method SetWallpaperBlur(checked: bool)
      modifies this, area
      ensures settings == old(settings)["wallpaperBlur" := Bool(checked)] && area.settings == Some(settings)
      ensures area.shortcuts == old(area.shortcuts) && area.currentEngine == old(area.currentEngine)
      ensures area.strings == old(area.strings) && area.wallpapers == old(area.wallpapers)
    {
      settings := settings["wallpaperBlur" := Bool(checked)];
      SaveSettings();
    }

    /** `handleImageUpload`: the same checks as on Firefox; an accepted file becomes `customBg`. */
    method HandleImageUpload(file: Option<UploadFile>, dataUrl: string) returns (check: UploadCheck)
      modifies this, area
      ensures check == CheckUpload(file)
      ensures check == Accepted ==> settings == old(settings)["customBg" := Str(dataUrl)] && area.settings == Some(settings)
      ensures check != Accepted ==> settings == old(settings) && area.settings == old(area.settings)
      ensures area.shortcuts == old(area.shortcuts) && area.currentEngine == old(area.currentEngine)
      ensures area.strings == old(area.strings) && area.wallpapers == old(area.wallpapers)
    {
      check := CheckUpload(file);
      if check == Accepted {
        settings := settings["customBg" := Str(dataUrl)];
        SaveSettings();
      }
    }

    /** `resetBackground`: only `customBg` is cleared (the Firefox page also turns the custom colour off). */
    method ResetBackground()
      modifies this, area
      ensures settings == old(settings)["customBg" := Null] && area.settings == Some(settings)
      ensures area.shortcuts == old(area.shortcuts) && area.currentEngine == old(area.currentEngine)
      ensures area.strings == old(area.strings) && area.wallpapers == old(area.wallpapers)
    {
      settings := settings["customBg" := Null];
      SaveSettings();
    }

    /** The listener `e` reaches. */
    method Handle(e: ChromeEvent)
      modifies this, area
      ensures settings == ChromeHandled(old(settings), e).0
      ensures area.settings == if ChromeHandled(old(settings), e).1 then Some(settings) else old(area.settings)
      ensures area.shortcuts == old(area.shortcuts) && area.currentEngine == old(area.currentEngine)
      ensures area.strings == old(area.strings) && area.wallpapers == old(area.wallpapers)
    {
      match e
      case BlurChanged(c) => SetBlur(c);
      case WallpaperBlurChanged(c) => SetWallpaperBlur(c);
      case FilePicked(file, dataUrl) => var _ := HandleImageUpload(file, dataUrl);
      case ResetClicked => ResetBackground();
    }

    /**
     * The script's life: `loadSettings` at DOMContentLoaded, then the
     * listeners in the order the user fires them. From a fresh page this is
     * `ChromeSession`.
     */
    method Run(events: seq<ChromeEvent>)
      modifies this, area
      ensures (settings, area.settings) == ChromeReplay(ReplaceIfStored(old(settings), old(area.settings)), old(area.settings), events)
      ensures old(settings) == ChromeDefaults ==> area.settings == ChromeSession(old(area.settings), events)
      ensures area.shortcuts == old(area.shortcuts) && area.currentEngine == old(area.currentEngine)
      ensures area.strings == old(area.strings) && area.wallpapers == old(area.wallpapers)
    {
      LoadSettings();
      var i := 0;
      while i < |events|
        invariant 0 <= i <= |events|
        invariant ChromeReplay(settings, area.settings, events[i..]) ==
                  ChromeReplay(ReplaceIfStored(old(settings), old(area.settings)), old(area.settings), events)
        invariant area.shortcuts == old(area.shortcuts) && area.currentEngine == old(area.currentEngine)
        invariant area.strings == old(area.strings) && area.wallpapers == old(area.wallpapers)
      {
        assert events[i..][1..] == events[i + 1..];
        Handle(events[i]);
        i := i + 1;
      }
    }
  }
}
