/**
 * The extension's `storage.local` area (`chrome.storage.local`, or
 * `browser.storage.local` on Firefox): one object shared by the new-tab page
 * and the Chrome options page. Each entry is absent (None, or no key) until
 * a page writes it.
 */
module BrowserLocal {
  import opened Values
  import opened Shortcuts
  import opened Wallpaper

  class LocalArea {
    /** The `settings` entry. */
    var settings: Option<Record>
    /** The `shortcuts` entry. */
    var shortcuts: Option<seq<Shortcut>>
    /** The `currentEngine` entry. */
    var currentEngine: Option<string>
    /** The `favicon_<host>` entries, and any other string entries. */
    var strings: map<string, string>
    /** The wallpaper entries: `cachedImage`, `cachedImageUrl`, `allCachedImages` and their teto twins. */
    var wallpapers: WallpaperStore

    constructor(settings: Option<Record>, shortcuts: Option<seq<Shortcut>>, currentEngine: Option<string>,
                strings: map<string, string>, wallpapers: WallpaperStore)
      ensures this.settings == settings && this.shortcuts == shortcuts && this.currentEngine == currentEngine
      ensures this.strings == strings && this.wallpapers == wallpapers
    {
      this.settings := settings;
      this.shortcuts := shortcuts;
      this.currentEngine := currentEngine;
      this.strings := strings;
      this.wallpapers := wallpapers;
    }
  }
}
