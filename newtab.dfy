/**
 * The new-tab page's module-level state (`settings`, `shortcuts`,
 * `currentEngine` in script.js and firefox/script.js) and the handlers that
 * update it and the `storage.local` area behind it.
 */
module NewTab {
  import opened Values
  import opened SettingsRules
  import opened Shortcuts
  import opened Favicon
  import opened Wallpaper
  import opened BrowserLocal
  import Text

  class NewTabPage {
    var settings: Record
    var shortcuts: seq<Shortcut>
    var currentEngine: string
    const area: LocalArea

    /** The page as its script starts, before DOMContentLoaded. */
    constructor(area: LocalArea)
      ensures settings == NewTabDefaults && shortcuts == [] && currentEngine == "google"
      ensures this.area == area
    {
      settings := NewTabDefaults;
      shortcuts := [];
      currentEngine := "google";
      this.area := area;
    }

    /**
     * `loadSettings`: a stored record is spread over the in-memory one, so
     * stored fields win and the rest keep what they had; a non-empty stored
     * engine replaces the current one.
     */
    method LoadSettings()
      modifies this
      ensures settings == if area.settings.Some? then Spread(old(settings), area.settings.value) else old(settings)
      ensures currentEngine == if area.currentEngine.Some? && area.currentEngine.value != "" then area.currentEngine.value else old(currentEngine)
      ensures shortcuts == old(shortcuts)
    {
      if area.settings.Some? {
        settings := Spread(settings, area.settings.value);
      }
      if area.currentEngine.Some? && area.currentEngine.value != "" {
        currentEngine := area.currentEngine.value;
      }
    }

    /** `loadShortcuts`: a stored list, even an empty one, replaces the in-memory list. */
    method LoadShortcuts()
      modifies this
      ensures shortcuts == if area.shortcuts.Some? then area.shortcuts.value else old(shortcuts)
      ensures settings == old(settings) && currentEngine == old(currentEngine)
    {
      if area.shortcuts.Some? {
        shortcuts := area.shortcuts.value;
      }
    }

    /** `saveShortcuts` */
    method SaveShortcuts()
      modifies area
      ensures area.shortcuts == Some(shortcuts)
      ensures area.settings == old(area.settings) && area.currentEngine == old(area.currentEngine)
      ensures area.strings == old(area.strings) && area.wallpapers == old(area.wallpapers)
    {
      area.shortcuts := Some(shortcuts);
    }

    /** `saveSettings` */
    method SaveSettings()
      modifies area
      ensures area.settings == Some(settings)
      ensures area.shortcuts == old(area.shortcuts) && area.currentEngine == old(area.currentEngine)
      ensures area.strings == old(area.strings) && area.wallpapers == old(area.wallpapers)
    {
      area.settings := Some(settings);
    }

    /**
     * The DOMContentLoaded handler's state part: load settings and shortcuts,
     * then seed (and save) the defaults when the list is empty.
     */
    method Initialize()
      modifies this, area
      ensures settings == if area.settings.Some? then Spread(old(settings), area.settings.value) else old(settings)
      ensures shortcuts == Seeded(if old(area.shortcuts).Some? then old(area.shortcuts).value else old(shortcuts))
      ensures shortcuts != []
      ensures old(shortcuts) == [] && (old(area.shortcuts).None? || old(area.shortcuts) == Some([])) ==>
        shortcuts == DefaultShortcuts && area.shortcuts == Some(DefaultShortcuts)
      ensures old(area.shortcuts).Some? && old(area.shortcuts).value != [] ==> area.shortcuts == old(area.shortcuts)
      ensures currentEngine == if area.currentEngine.Some? && area.currentEngine.value != "" then area.currentEngine.value else old(currentEngine)
      ensures area.settings == old(area.settings) && area.currentEngine == old(area.currentEngine)
      ensures area.strings == old(area.strings) && area.wallpapers == old(area.wallpapers)
    {
      LoadSettings();
      LoadShortcuts();
      if |shortcuts| == 0 {
        shortcuts := DefaultShortcuts;
        SaveShortcuts();
      }
    }

    /**
     * `loadRandomImage` against the area's wallpaper entries; the count file,
     * the random draws and the downloaded image arrive as parameters.
     */
    method LoadWallpaper(countText: Option<string>, rand: real, image: Option<string>, fallbackRand: real)
      returns (background: Background)
      requires 0.0 <= rand < 1.0 && 0.0 <= fallbackRand < 1.0
      modifies area
      ensures background == LoadRandomImage(settings, old(area.wallpapers), countText, rand, image, fallbackRand).background
      ensures area.wallpapers == LoadRandomImage(settings, old(area.wallpapers), countText, rand, image, fallbackRand).store
      ensures area.settings == old(area.settings) && area.shortcuts == old(area.shortcuts)
      ensures area.currentEngine == old(area.currentEngine) && area.strings == old(area.strings)
    {
      var outcome := LoadRandomImage(settings, area.wallpapers, countText, rand, image, fallbackRand);
      area.wallpapers := outcome.store;
      background := outcome.background;
    }

    /** The add form's handler; `added` says whether the shortcut was accepted (and saved). */
    method AddShortcut(titleInput: string, urlInput: string, parseUrl: string -> Option<ParsedUrl>) returns (added: bool)
      modifies this, area
      ensures shortcuts == Shortcuts.AddShortcut(old(shortcuts), titleInput, urlInput, parseUrl)
      ensures added <==> shortcuts != old(shortcuts)
      ensures area.shortcuts == if added then Some(shortcuts) else old(area.shortcuts)
      ensures settings == old(settings) && currentEngine == old(currentEngine)
      ensures area.settings == old(area.settings) && area.strings == old(area.strings)
      ensures area.currentEngine == old(area.currentEngine) && area.wallpapers == old(area.wallpapers)
    {
      var next := Shortcuts.AddShortcut(shortcuts, titleInput, urlInput, parseUrl);
      added := next != shortcuts;
      if added {
        shortcuts := next;
        SaveShortcuts();
      }
    }

    /**
     * The Firefox add handler: as on Chrome, and once the shortcut is saved
     * its icon is looked up (and stored) at once; `fetched` is that download.
     */
    method AddShortcutAndFavicon(titleInput: string, urlInput: string, parseUrl: string -> Option<ParsedUrl>,
                                 fetched: Option<string>) returns (added: bool)
      modifies this, area
      ensures shortcuts == Shortcuts.AddShortcut(old(shortcuts), titleInput, urlInput, parseUrl)
      ensures added <==> shortcuts != old(shortcuts)
      ensures area.shortcuts == if added then Some(shortcuts) else old(area.shortcuts)
      ensures area.strings ==
        if added then CachedFaviconUrl(parseUrl(Text.Trim(urlInput)), old(area.strings), fetched).local else old(area.strings)
      ensures added ==> IsCached(area.strings, parseUrl(Text.Trim(urlInput)).value.hostname) || fetched.None? || fetched == Some("")
      ensures settings == old(settings) && currentEngine == old(currentEngine) && area.settings == old(area.settings)
      ensures area.currentEngine == old(area.currentEngine) && area.wallpapers == old(area.wallpapers)
    {
      added := AddShortcut(titleInput, urlInput, parseUrl);
      if added {
        var _ := LookupFavicon(parseUrl(Text.Trim(urlInput)), fetched);
      }
    }

    /** A tile's delete button: `shortcuts.splice(index, 1)`, then save. */
    method DeleteShortcut(index: nat)
      modifies this, area
      ensures shortcuts == RemoveAt(old(shortcuts), index)
      ensures area.shortcuts == Some(shortcuts)
      ensures settings == old(settings) && currentEngine == old(currentEngine)
      ensures area.settings == old(area.settings) && area.strings == old(area.strings)
      ensures area.currentEngine == old(area.currentEngine) && area.wallpapers == old(area.wallpapers)
    {
      shortcuts := RemoveAt(shortcuts, index);
      SaveShortcuts();
    }

    /** `hideBanner`: set `bannerHidden` and save the record. */
    method HideBanner()
      modifies this, area
      ensures settings == old(settings)["bannerHidden" := Bool(true)]
      ensures area.settings == Some(settings)
      ensures shortcuts == old(shortcuts) && currentEngine == old(currentEngine)
      ensures area.shortcuts == old(area.shortcuts) && area.strings == old(area.strings)
      ensures area.currentEngine == old(area.currentEngine) && area.wallpapers == old(area.wallpapers)
    {
      settings := settings["bannerHidden" := Bool(true)];
      SaveSettings();
    }

    /** A search-engine button: remember and save the engine. */
    method SelectEngine(engine: string)
      modifies this, area
      ensures currentEngine == engine && area.currentEngine == Some(engine)
      ensures settings == old(settings) && shortcuts == old(shortcuts)
      ensures area.settings == old(area.settings) && area.shortcuts == old(area.shortcuts)
      ensures area.strings == old(area.strings) && area.wallpapers == old(area.wallpapers)
    {
      currentEngine := engine;
      area.currentEngine := Some(engine);
    }

    /** Firefox `getFaviconUrl` against the area's favicon entries. */
    method LookupFavicon(parsed: Option<ParsedUrl>, fetched: Option<string>) returns (icon: Option<string>)
      modifies area
      ensures icon == CachedFaviconUrl(parsed, old(area.strings), fetched).icon
      ensures area.strings == CachedFaviconUrl(parsed, old(area.strings), fetched).local
      ensures area.settings == old(area.settings) && area.shortcuts == old(area.shortcuts)
      ensures area.currentEngine == old(area.currentEngine) && area.wallpapers == old(area.wallpapers)
    {
      var r := CachedFaviconUrl(parsed, area.strings, fetched);
      icon := r.icon;
      area.strings := r.local;
    }
  }

  /** After loading, every stored field is in force and every other field keeps its default. */
  lemma LoadedSettingsOverDefaults(stored: Record, name: string)
    requires name in NewTabDefaults || name in stored
    ensures name in Spread(NewTabDefaults, stored)
    ensures Spread(NewTabDefaults, stored)[name] == if name in stored then stored[name] else NewTabDefaults[name]
  {
  }
}
