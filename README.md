# MikuTheme, modelled in Dafny

MikuTheme is a browser extension that replaces the new-tab page. The page
shows a random wallpaper from the project's repository and keeps recent
pictures cached for offline use. It also shows a grid of shortcut tiles, a
weather label and a search bar. Each browser has its own options page: blur
toggles, a custom background upload, display modes and, on Firefox, a custom
accent colour and a hidden "Teto" mode unlocked by clicking the version
number five times.

This project models the logic behind those pages:

- the new-tab scripts for Chrome (`script.js`) and Firefox (`firefox/script.js`);
- the two options-page scripts (`settings-script.js` and `firefox/settings-script.js`);
- the IndexedDB wrapper `MikuStorage` (`storage-db.js`).

It proves properties of each.

Modules, one per file:

- `Values`: JavaScript values and truthiness, records and object spread.
- `Text`: `trim` and `parseInt`.
- `Storage`: the `MikuStorage` class over a map of object stores. The database's contents are also available as functions, with round-trip lemmas.
- `ImageCache`: the cache of downloaded wallpapers. It deduplicates by URL and evicts the first entry with the longest data at capacity (20 Miku pictures or 10 Teto pictures). The scan is a loop-carrying method.
- `Wallpaper`: one run of `loadRandomImage` as a function of its inputs, plus the display-mode tables.
- `Color`: `adjustColorBrightness` and the hex printing and parsing it relies on.
- `Weather`: `getWeatherCondition`.
- `Shortcuts`: the default list, validation of the add form, `splice` and the 14-slot grid.
- `Favicon`: the icon-service URL and Firefox's `favicon_<host>` cache.
- `SettingsRules`: the defaults, the upload checks, the version-click counter, the update check, the Teto-mode toggles and the two ways of loading a record.
- `BrowserLocal`: the shared `storage.local` area.
- `NewTab`: the new-tab page's state as a class.
- `SettingsPages`: the two options pages as classes.

Browser input reaches the model as parameters:

- fetched text and downloads, as `Option` values, None where the call throws;
- random draws, as reals in [0, 1);
- the parse of a URL, as a function from text to `Option<ParsedUrl>`.

On Firefox the options page and the new-tab page keep their records in
different places. The options page saves to `MikuStorage`'s IndexedDB
`settings` store under `userSettings`. The new-tab page reads the `settings`
entry of `browser.storage.local`. The model keeps the two apart, as the code
does: `SettingsPages.FirefoxSettingsPage` writes to its `store`, and
`NewTab.NewTabPage` reads its `area`. On Chrome both pages share the
`storage.local` area.

## Model

| member | source | states |
|---|---|---|
| Values.Spread | script.js:66-68 | `{...base, ...over}`: the keys are the union, `over`'s values win and the rest of `base` is kept |
| Text.Trim | script.js:540-541 | the result has no white space at either end, and is empty exactly when the input is all white space |
| Text.TrimIsSlice | script.js:540-541 | the trimmed text is a contiguous slice of the input, and everything before and after that slice is white space |
| Text.ParseInt | script.js:170 | blank text is NaN (None); a result is negative only after a leading `-`, and a leading `-` never gives a positive result |
| Text.ParseIntOfDigits | script.js:170 | `parseInt` of a non-empty string of decimal digits is the number they denote |
| Text.ParseIntOfNatToString | script.js:170 | parsing the decimal text of any natural number gives that number back |
| Storage.Upgrade | storage-db.js:25-41 | the upgrade creates exactly the missing stores of the four, empty, and keeps every existing store |
| Storage.UpgradeOfOpen | storage-db.js:15-43 | opening an already complete database changes nothing |
| Storage.ReadKey | storage-db.js:45-56 | a missing store is an error; a missing key gives `undefined` (None); a present key gives exactly its stored value |
| Storage.WriteKey | storage-db.js:58-69 | `put` fails only on a missing store; afterwards the key reads back as the value and every other store and key reads as before |
| Storage.DeleteKey | storage-db.js:71-82 | `delete` fails only on a missing store; afterwards the key reads as absent and nothing else changes |
| Storage.ClearStore | storage-db.js:97-108 | `clear` empties exactly the named store |
| Storage.SettingsIn | storage-db.js:111-113 | `getSettings` is always truthy: the stored record when it is truthy, `{}` when it is missing or falsy |
| Storage.ShortcutsIn | storage-db.js:119-121 | `getShortcuts` is the stored value when it is truthy, `[]` when it is missing or falsy |
| Storage.CachedImagesIn | storage-db.js:127-130 | `getCachedImages` reads the mode's own store: the stored value when it is truthy, `[]` when it is missing or falsy |
| Storage.SettingsRoundTrip | storage-db.js:111-117 | a saved truthy record is what `getSettings` returns next |
| Storage.ShortcutsRoundTrip | storage-db.js:119-125 | saved shortcuts are what `getShortcuts` returns next |
| Storage.CachedImagesRoundTrip | storage-db.js:127-135 | saving one mode's images is read back in that mode and leaves the other mode, the settings and the shortcuts alone |
| Storage.ClearImageCacheOnlyThatMode | storage-db.js:137-140 | `clearImageCache` empties that mode's cache and keeps the other mode's, every other key, the settings and the shortcuts |
| Storage.ClearAllImageCachesEmptiesBoth | storage-db.js:142-145 | both image stores end empty; settings and shortcuts are kept |
| Storage.OtherDataRoundTrip | storage-db.js:147-153 | `getOtherData(key)` returns what `saveOtherData(key, v)` stored, and the settings record is untouched by any other key |
| Storage.MikuStorage.constructor | storage-db.js:11-13 | a new wrapper holds no open connection |
| Storage.MikuStorage.Init | storage-db.js:15-43 | after `init` the connection is open and the database is the upgraded one |
| Storage.MikuStorage.EnsureOpen | storage-db.js:46 | the lazy open leaves an open connection over the upgraded database, whether or not one was open |
| Storage.MikuStorage.Get | storage-db.js:45-56 | `get` opens if needed and returns what `ReadKey` says of the database |
| Storage.MikuStorage.Set | storage-db.js:58-69 | `set` resolves to the key and applies `WriteKey`, or rejects and changes nothing |
| Storage.MikuStorage.Delete | storage-db.js:71-82 | `delete` applies `DeleteKey`, or rejects and changes nothing |
| Storage.MikuStorage.Clear | storage-db.js:97-108 | `clear` applies `ClearStore`, or rejects and changes nothing |
| Storage.MikuStorage.GetSettings | storage-db.js:111-113 | returns `SettingsIn` of the opened database |
| Storage.MikuStorage.SaveSettings | storage-db.js:115-117 | the database becomes `SaveSettingsTo` of the opened one |
| Storage.MikuStorage.GetShortcuts | storage-db.js:119-121 | returns `ShortcutsIn` of the opened database |
| Storage.MikuStorage.SaveShortcuts | storage-db.js:123-125 | the database becomes `SaveShortcutsTo` of the opened one |
| Storage.MikuStorage.GetCachedImages | storage-db.js:127-130 | returns the mode's `CachedImagesIn` |
| Storage.MikuStorage.SaveCachedImages | storage-db.js:132-135 | the database becomes `SaveCachedImagesTo` for that mode |
| Storage.MikuStorage.ClearImageCache | storage-db.js:137-140 | the database becomes `ClearImageCacheIn` for that mode |
| Storage.MikuStorage.ClearAllImageCaches | storage-db.js:142-145 | the database becomes `ClearAllImageCachesIn` |
| Storage.MikuStorage.GetOtherData | storage-db.js:147-149 | returns the value under the key in the `settings` store, if any |
| Storage.MikuStorage.SaveOtherData | storage-db.js:151-153 | the database becomes `SaveOtherDataTo` |
| ImageCache.FirstLargest | script.js:234-244 | the index is the lowest one whose data is longest (`IsFirstLargest`) |
| ImageCache.FirstLargestUnique | script.js:238-244 | only one index is the first largest, so the scan's answer is determined |
| ImageCache.Without | script.js:246 | `splice(k, 1)`: one shorter, entries before `k` kept, entries after shifted down by one |
| ImageCache.FindLargestIndex | script.js:235-244 | the loop finds the first index of maximal data length (strict `>`, so ties keep the earlier index) |
| ImageCache.InsertCachedImage | script.js:225-251 | a write happens exactly when the URL is new; the resulting array is `Insert` of the old one |
| ImageCache.InsertPresentUnchanged | firefox/script.js:176-177 | a URL already in the array changes nothing |
| ImageCache.InsertBelowCapacity | script.js:249 | below capacity a new picture is appended at the end and earlier entries keep their order |
| ImageCache.InsertAtCapacity | script.js:231-249 | at capacity the length is unchanged: the first largest entry goes and the new one is appended |
| ImageCache.EvictedIsLongest | script.js:233-246 | no entry that stays has longer data than the evicted one |
| ImageCache.InsertWithinCapacity | firefox/script.js:178-196 | an array within capacity stays within it |
| ImageCache.InsertThenContains | script.js:229-249 | after recording, the URL is in the array |
| ImageCache.InsertUrls | script.js:229-249 | every URL afterwards was there before or is the new one |
| ImageCache.InsertKeepsUrlsDistinct | script.js:229-230 | the deduplication keeps the URLs pairwise distinct |
| ImageCache.InsertAllWithinCapacity | firefox/script.js:172-198 | any sequence of downloads keeps the array within capacity |
| ImageCache.InsertAllFreshLength | script.js:225-251 | n fresh, distinct downloads leave `min(len + n, capacity)` entries |
| Wallpaper.ModeKeysDisjoint | script.js:162-166 | the Miku and Teto modes use disjoint storage keys |
| Wallpaper.ImageCount | script.js:170-176 | the count is `parseInt(text.trim())` when positive; NaN or not positive means none |
| Wallpaper.ImageCountOfCountFile | firefox/script.js:116-118 | a count file holding `n` and a line break yields `n` |
| Wallpaper.RandomIndex | script.js:275 | `Math.floor(random * n)` is an index below `n` |
| Wallpaper.RandomIndexReachesAll | script.js:275 | every index can be drawn |
| Wallpaper.ImageNumber | script.js:178 | the picture number lies in 1..count |
| Wallpaper.ImageUrl | script.js:179 | the URL is the images folder, a slash, the number and `.png` |
| Wallpaper.ImageUrlInjective | script.js:179 | distinct picture numbers give distinct URLs |
| Wallpaper.WithCache | script.js:219-222 | writing one mode's entries leaves the other mode's as they were |
| Wallpaper.SlotHit | script.js:183 | the slot is a hit exactly when its data is truthy and it was stored for this very URL |
| Wallpaper.PickCached | script.js:269-286 | the offline pick is the data of some cached entry, and none exactly when the array is empty |
| Wallpaper.ShowCached | script.js:273-281 | the picked entry's data is shown, and the gradient stays exactly when nothing was picked |
| Wallpaper.LoadRandomImage | script.js:148-266 | a custom background short-circuits everything. A failed count fetch, an invalid count or a failed download falls back to a cached picture and stores nothing. A slot hit is shown as is. A download happens exactly when the count is valid, the slot misses and the picture arrives; it is shown, fills the slot under the chosen URL, is `Insert`ed into that mode's array, and leaves the other mode untouched |
| Wallpaper.InvalidCountFallsBack | firefox/script.js:118-124 | an invalid count falls back to a cached picture and stores nothing |
| Wallpaper.SlotHitSkipsDownload | script.js:181-187 | for any count text with a valid count, a slot already holding the chosen URL is shown without downloading or storing |
| Wallpaper.DownloadRecordsPicture | firefox/script.js:126-197 | for any count text with a valid count, a download is shown and recorded, in the slot and the array, under the URL of the drawn picture number, which lies within the count |
| Wallpaper.CountFileDownloads | firefox/script.js:116-118 | a count file holding a positive number and a line break reaches the download when the slot misses |
| Wallpaper.LoadKeepsCapacity | script.js:231-249 | loading keeps both arrays within their capacities |
| Wallpaper.ChromeDisplayStyle | script.js:289-302 | `tile` repeats and every other mode does not; an unknown or non-string mode is `cover` |
| Wallpaper.FirefoxDisplayStyle | firefox/script.js:234-247 | the same guarantees from a table that leaves `repeat` out except for `tile` |
| Wallpaper.DisplayStylesAgree | firefox/script.js:234-247 | both tables style every mode alike |
| Color.HexString | script.js:366 | `toString(16)` prints a non-empty string of lower-case hex digits |
| Color.HexWidthOfDigitsValue | script.js:361 | reading a hex string and printing it back at the same width gives its lower-case form |
| Color.DigitsValueOfHexWidth | script.js:366 | printing a number below `16^k` in `k` digits and reading it back gives the number |
| Color.ShiftsReadPairs | script.js:361-365 | `num >> 16`, `num >> 8 & 0xFF` and `num & 0xFF` are the values of the three digit pairs |
| Color.PrintedColor | script.js:366 | `((1 << 24) + (R << 16) + (G << 8) + B).toString(16).slice(1)` is the three channels printed in two digits each |
| Color.Clamp | script.js:363-365 | `min(255, max(0, x))` lies in 0..255, equals `x` inside it, 0 below it and 255 above it |
| Color.AdjustColorBrightness | script.js:360-367 | the result is a lower-case `#rrggbb` whose every channel is the input channel plus `amt`, clamped to 0..255 |
| Color.AdjustByZero | firefox/settings-script.js:346-353 | an adjustment of 0 returns the colour in lower case |
| Color.AdjustIsMonotone | firefox/script.js:305-312 | a larger adjustment never darkens a channel |
| Weather.WeatherCondition | script.js:128-145 | a listed WMO code gives its group whatever the wind; an unlisted code is Windy exactly when the wind is above 30 km/h, otherwise Sunny |
| Weather.LabelInjective | script.js:130-144 | different conditions print different words |
| Weather.ListedCodesIgnoreWind | script.js:130-139 | the wind does not matter for a listed code |
| Weather.WindThreshold | script.js:142 | exactly 30 km/h is not windy |
| Shortcuts.AddShortcut | script.js:539-551 | the trimmed pair is appended exactly when both inputs have a non-blank character and the trimmed URL parses with an http or https scheme; otherwise the list is unchanged |
| Shortcuts.AddedShortcutIsClean | script.js:540-544 | an accepted shortcut has non-empty, trimmed fields and a web URL, and earlier shortcuts are kept |
| Shortcuts.BlankTitleRefused | script.js:543 | an all-white-space title is refused whatever the URL |
| Shortcuts.RemoveAt | script.js:496 | `splice(index, 1)` removes that entry and keeps the order; an index past the end removes nothing |
| Shortcuts.RemoveAddedShortcut | firefox/script.js:467 | deleting what was just added restores the list |
| Shortcuts.RemoveAtMultiset | script.js:496 | deletion removes exactly one occurrence of that shortcut |
| Shortcuts.Seeded | script.js:46-50 | the list after seeding is never empty: an empty list becomes the defaults and a non-empty list is kept |
| Shortcuts.SeededIdempotent | firefox/script.js:46-50 | seeding twice is seeding once |
| Shortcuts.RenderShortcuts | script.js:455-473 | the grid has one tile per shortcut, in order and with its index, then "Add" tiles up to 14 slots |
| Favicon.CacheKey | firefox/script.js:347 | the key starts with `favicon_` |
| Favicon.CacheKeyInjective | firefox/script.js:347 | distinct hosts get distinct `favicon_` keys |
| Favicon.ServiceUrl | script.js:400 | the service URL starts with the service's prefix, followed by the host name and the size parameter |
| Favicon.ServiceUrlInjective | script.js:400 | different hosts ask for different URLs |
| Favicon.FaviconUrl | script.js:396-404 | the icon-service URL for the host, or null exactly when the URL does not parse |
| Favicon.CachedFaviconUrl | firefox/script.js:341-374 | a stored icon is returned as is. A fetched icon is stored under its host's key and returned. A failed fetch returns the service URL and stores nothing. An unparsable URL gives null |
| Favicon.LookupTouchesOnlyItsHost | firefox/script.js:362 | a lookup writes no key but its own host's |
| Favicon.SecondLookupHits | firefox/script.js:348-352 | once fetched, the next lookup of that host is answered from storage |
| Favicon.FailedFetchMatchesUncached | firefox/script.js:367-370 | a failed fetch shows what the uncached Chrome page shows |
| Favicon.ClearFaviconCache | firefox/settings-script.js:177-184 | the intended clearing: every `favicon_` key removed and every other key kept |
| Favicon.LookupAfterClearFetches | firefox/settings-script.js:177-184 | after the intended clearing no host's icon is stored |
| SettingsRules.CheckUpload | firefox/settings-script.js:355-377 | each outcome holds exactly when its check is the first to fail: no file; a type not starting with `image/`; an image over 5 MiB; otherwise accepted |
| SettingsRules.UploadLimitInclusive | settings-script.js:82-86 | exactly 5 MiB passes and one byte more does not |
| SettingsRules.VersionClick | firefox/settings-script.js:258-270 | once unlocked, clicks are ignored. Otherwise the count goes up by one: the fifth click unlocks, the third and fourth only pulse |
| SettingsRules.ClicksFrom | firefox/settings-script.js:258-270 | from any count below five, each click's effect depends only on its position, and the count stops at five, unlocked |
| SettingsRules.AllIgnored | firefox/settings-script.js:260 | once unlocked, every further click is ignored and changes nothing |
| SettingsRules.FiveClicksUnlock | firefox/settings-script.js:262-266 | from a fresh page, n clicks unlock exactly when n is at least five, and only the fifth click unlocks |
| SettingsRules.UpdateAvailable | firefox/settings-script.js:48-59 | the banner shows exactly when the manifest arrived and its version differs from the local one |
| SettingsRules.UpdateAvailableSymmetric | firefox/settings-script.js:53 | the check is plain inequality, so it is symmetric and an older remote version also shows the banner |
| SettingsRules.ToggleTeto | firefox/settings-script.js:200-212 | `tetoMode` takes the checkbox's value; turning it off also turns mixed mode off, so the modes stay consistent |
| SettingsRules.TetoMikuToggleState | firefox/settings-script.js:273-281 | the mixed toggle is disabled exactly when teto mode is off, and then mixed mode is forced off; teto mode and every other field are kept |
| SettingsRules.TetoMikuToggleStateIdempotent | firefox/settings-script.js:273-281 | running the toggle update twice is running it once |
| SettingsRules.SettledIsFixedPoint | firefox/settings-script.js:293 | on a settled page, the toggle update inside `updateUI` changes nothing |
| SettingsRules.ToggleTetoSettles | firefox/settings-script.js:200-212 | after the teto handler the page is settled, and the saved record is the one the page keeps |
| SettingsRules.SetFieldKeepsSettled | firefox/settings-script.js:188-239 | handlers that set any other field keep the page settled |
| SettingsRules.MergeNonEmpty | firefox/settings-script.js:27-32 | a saved record with properties overrides, field by field, and the other current fields are kept; an empty one changes nothing |
| SettingsRules.ReplaceIfStored | settings-script.js:11-16 | a stored record replaces the current one wholesale |
| SettingsRules.EmptyStoredRecord | settings-script.js:13-15 | an empty stored record wipes the Chrome options page's defaults but leaves Firefox's and the new-tab page's in place |
| BrowserLocal.LocalArea.constructor | script.js:66 | the area holds exactly the entries it is given, which `storage.local.get` then reads |
| NewTab.NewTabPage.constructor | script.js:28-39 | the page starts with the default record, no shortcuts and Google search |
| NewTab.NewTabPage.LoadSettings | script.js:65-74 | a stored record is spread over the current one; a non-empty stored engine replaces the current one |
| NewTab.NewTabPage.LoadShortcuts | firefox/script.js:81-86 | a stored list replaces the current one |
| NewTab.NewTabPage.SaveShortcuts | script.js:90-92 | the `shortcuts` entry becomes the page's list and nothing else in the area changes |
| NewTab.NewTabPage.SaveSettings | script.js:77-79 | the `settings` entry becomes the page's record and nothing else changes |
| NewTab.NewTabPage.Initialize | script.js:42-50 | after loading, the record and engine are those `loadSettings` gives and the list is `Seeded` of what was stored; an empty or missing list becomes the defaults and is saved; a stored non-empty list is not rewritten; no other entry of the area changes |
| NewTab.NewTabPage.LoadWallpaper | firefox/script.js:94-212 | the background and the wallpaper entries are those of `LoadRandomImage` |
| NewTab.NewTabPage.AddShortcut | script.js:539-551 | the list becomes `Shortcuts.AddShortcut` of the old one and is saved exactly when it changed; nothing else changes |
| NewTab.NewTabPage.AddShortcutAndFavicon | firefox/script.js:510-523 | as on Chrome; an accepted shortcut's icon is then looked up and, when downloaded, stored; the record, engine and wallpapers are untouched |
| NewTab.NewTabPage.DeleteShortcut | script.js:493-498 | the list becomes `RemoveAt` of the old one and is saved; nothing else changes |
| NewTab.NewTabPage.HideBanner | firefox/script.js:334-338 | `bannerHidden` becomes true in the record and in storage; nothing else changes |
| NewTab.NewTabPage.SelectEngine | script.js:408-412 | the engine becomes current and is saved |
| NewTab.NewTabPage.LookupFavicon | firefox/script.js:341-374 | the icon and the favicon entries are those of `CachedFaviconUrl` |
| NewTab.LoadedSettingsOverDefaults | script.js:65-74 | after loading over the defaults, each stored field is in force and every other field keeps its default |
| SettingsPages.FirefoxSettingsPage.constructor | firefox/settings-script.js:1-12 | the page starts with the Firefox defaults, no clicks counted and teto mode locked |
| SettingsPages.FirefoxSettingsPage.LoadSettings | firefox/settings-script.js:27-32 | the record is `MergeNonEmpty` of the current one and what `getSettings` returned |
| SettingsPages.FirefoxSettingsPage.CheckTetoModeUnlocked | firefox/settings-script.js:143-149 | a truthy stored unlock flag unlocks teto mode; nothing locks it again |
| SettingsPages.FirefoxSettingsPage.UpdateTetoMikuToggleState | firefox/settings-script.js:273-281 | the page becomes settled per `TetoMikuToggleState`, and a settled page is unchanged |
| SettingsPages.FirefoxSettingsPage.Initialize | firefox/settings-script.js:17-25 | after start-up the database is open and upgraded, the record is loaded and settled, and the unlock flag has been read |
| SettingsPages.FirefoxSettingsPage.SaveSettings | firefox/settings-script.js:34-37 | the record is written and `getSettings` reads it back unchanged |
| SettingsPages.FirefoxSettingsPage.SetField | firefox/settings-script.js:187-239 | one field other than the two mode flags takes its new value, the record is saved and reads back unchanged, a settled page stays settled, and the counters and toggle are untouched |
| SettingsPages.FirefoxSettingsPage.SetBlur | firefox/settings-script.js:187-191 | `blurEnabled` takes the checkbox's value and the record is saved; a settled page stays settled; it reads back unchanged, and the counters and the mixed toggle are untouched |
| SettingsPages.FirefoxSettingsPage.SetWallpaperBlur | firefox/settings-script.js:193-197 | `wallpaperBlur` takes the checkbox's value and the record is saved; it reads back unchanged, and the counters and the mixed toggle are untouched |
| SettingsPages.FirefoxSettingsPage.SetTetoMode | firefox/settings-script.js:199-212 | the record becomes `ToggleTeto` of the old one and is saved; the saved record reads back; the mixed toggle is enabled exactly when teto mode is on |
| SettingsPages.FirefoxSettingsPage.SetTetoMikuMode | firefox/settings-script.js:214-218 | `tetoMikuMode` takes the checkbox's value and is saved; on a settled page the modes stay consistent; it reads back unchanged, and the counters and the mixed toggle are untouched |
| SettingsPages.FirefoxSettingsPage.SetDisplayMode | firefox/settings-script.js:220-225 | `bgDisplayMode` takes the selected value and is saved; it reads back unchanged, and the counters and the mixed toggle are untouched |
| SettingsPages.FirefoxSettingsPage.SetCustomColorEnabled | firefox/settings-script.js:227-232 | `customColorEnabled` takes the checkbox's value and is saved; it reads back unchanged, and the counters and the mixed toggle are untouched |
| SettingsPages.FirefoxSettingsPage.SetCustomColor | firefox/settings-script.js:234-239 | `customColor` takes the picker's value and is saved; it reads back unchanged, and the counters and the mixed toggle are untouched |
| SettingsPages.FirefoxSettingsPage.VersionClick | firefox/settings-script.js:258-270 | the click listener: the counters follow `VersionClick`. On the fifth click `unlockTetoMode` (lines 151-156) runs, so only that click writes the database, and it stores a flag that `checkTetoModeUnlocked` then finds |
| SettingsPages.FirefoxSettingsPage.HandleImageUpload | firefox/settings-script.js:355-377 | the outcome is `CheckUpload`; a refused file changes nothing; an accepted one is saved as `customBg`, reads back, and the page is settled; the click counters are untouched |
| SettingsPages.FirefoxSettingsPage.ResetBackground | firefox/settings-script.js:379-385 | `customBg` is cleared and the custom colour switched off, saved (and read back), and the page is settled; the click counters are untouched |
| SettingsPages.FirefoxSettingsPage.ClearImageCache | firefox/settings-script.js:168-175 | both image caches read as empty afterwards; the settings record is kept |
| SettingsPages.FirefoxSettingsPage.ClearFaviconCache | firefox/settings-script.js:177-184 | as written: nothing is cleared and the favicon entries are left as they were |
| SettingsPages.FaviconButtonDiscrepancy | firefox/settings-script.js:179 | a stored icon survives the button as written but not the intended clearing |
| SettingsPages.ChromeSettingsPage.constructor | settings-script.js:1 | the page starts with the Chrome defaults |
| SettingsPages.ChromeSettingsPage.LoadSettings | settings-script.js:11-16 | the record becomes `ReplaceIfStored` of what is stored |
| SettingsPages.ChromeSettingsPage.SaveSettings | settings-script.js:19-22 | only the `settings` entry of the shared area changes |
| SettingsPages.ChromeSettingsPage.SetBlur | settings-script.js:28-31 | `blurEnabled` takes the checkbox's value and is saved; no other entry of the area changes |
| SettingsPages.ChromeSettingsPage.SetWallpaperBlur | settings-script.js:35-38 | `wallpaperBlur` takes the checkbox's value and is saved; no other entry of the area changes |
| SettingsPages.ChromeSettingsPage.HandleImageUpload | settings-script.js:72-97 | the outcome is `CheckUpload`; only an accepted file changes `customBg`, and it is saved; no other entry of the area changes |
| SettingsPages.ChromeSettingsPage.ResetBackground | settings-script.js:100-105 | only `customBg` is cleared, and the record is saved; no other entry of the area changes |
| SettingsPages.ChromeSettingsPage.Handle | settings-script.js:25-53 | each listener gives the record `ChromeHandled` says, and saves it exactly when that says so; no other entry changes |
| SettingsPages.ChromeSettingsPage.Run | settings-script.js:4-8 | loading then any sequence of listener calls leaves the record and the stored entry `ChromeReplay` gives; from a fresh page that is `ChromeSession` |
| SettingsPages.ChromeHandled | settings-script.js:28-105 | every listener saves except the upload one refusing its file; a saving listener writes its value into its own field, a listener that does not save changes nothing, and none touches a field but its own |
| SettingsPages.ChromeReplay | settings-script.js:25-105 | after any sequence of listener calls either nothing changed or the stored entry holds the page's record; refused uploads alone change nothing |
| SettingsPages.SavingEventStores | settings-script.js:19-22 | once any listener has saved, the stored entry at the end is the page's final record |
| SettingsPages.ReplayKeepsField | settings-script.js:28-105 | listeners writing other fields leave a field as it was, over a whole session |
| SettingsPages.LastWriteWins | settings-script.js:28-105 | after a session each field holds what its last saving listener wrote, and the entry stores that record |
| SettingsPages.SessionLastWriteWins | settings-script.js:4-105 | in the intended session the stored entry holds, in each field, the value its last saving listener wrote |
| SettingsPages.ReplayEndingInReset | settings-script.js:100-105 | a session ending with the reset button stores the page's record, with `customBg` null |
| SettingsPages.ChromeSession | settings-script.js:4-16 | the intended page: a session with any saving listener stores the page's record after loading over the defaults and running the listeners; a session of refused uploads alone stores nothing |
| SettingsPages.ChromeSessionAsWritten | settings-script.js:118 | as written the script does not parse, so whatever the user does the stored entry is as it was |
| SettingsPages.ChromeScriptDiscrepancy | settings-script.js:118 | toggling blur on a fresh profile stores nothing as written and the toggled defaults as intended |

## Left out

- `MikuStorage.getAll` (storage-db.js:84-95) is not modelled. No page calls it.
- The DOM is not modelled: rendering, toasts, modals, CSS classes and the loading indicator. Only the state the handlers change and the values they compute are kept.
- The network, `FileReader`, the streaming reader and geolocation are parameters. `loadWeather` (script.js:95-126) is left out except for `getWeatherCondition`. The whole temperature display is I/O.
- `performSearch` is not modelled. It needs `encodeURIComponent` and a page navigation.
- The update modal's markdown-to-HTML regex pipeline (firefox/settings-script.js:106-117) is not modelled.
- Floating-point arithmetic is not modelled.
  - The progress percentage (script.js:207) is left out.
  - `Math.round(2.55 * percent)` in `adjustColorBrightness` reaches the model as the integer `amt`. The calls use -51, 51 and 102.
  - JavaScript numbers are modelled as integers, and the wind speed as a real.
- Color.AdjustColorBrightness: it requires a `#rrggbb` input. Other strings, which make `parseInt` return NaN or a shorter value, are not modelled. The colour picker only produces this form.
- URL parsing (`new URL`) is foreign. It is a parameter returning the protocol and host name, or None where the constructor throws.
- Shortcuts are only the `{title, url}` records the pages write. Stored values of other shapes are not modelled. Neither is `escapeHtml`.
- SettingsPages.FirefoxSettingsPage.LoadSettings: a saved value that is not an object is ignored. The source would spread a string's characters or an array's indices into the record.
- Wallpaper.ChromeDisplayStyle: a display mode that is not a string, or that names an `Object.prototype` property, is treated as unknown (`cover`).
- Favicon.CachedFaviconUrl: the body of any fetch response, an error page included, counts as the downloaded icon. Only a thrown fetch is a failure, as in the source.
- settings-script.js as written does not run at all (see Findings). `SettingsPages.ChromeSettingsPage` models the page as its functions describe it, as if the extra brace were absent.
- Asynchronous interleaving is not modelled: handlers run one at a time, each to completion. The reload after unlocking Teto mode (firefox/settings-script.js:155) is not modelled.
- firefox-script.js and firefox-settings-script.js only adapt `browser.*` to `chrome.*`. They are not part of this model.
- SettingsPages.FirefoxSettingsPage.SetTetoMikuMode: it requires the mixed toggle to be enabled. A disabled checkbox fires no `change` event, so the handler never runs on a disabled toggle; a scripted call on one is not modelled.
- Shortcuts.RenderShortcuts: on Firefox each tile's `createShortcutCard` awaits `getFaviconUrl` (firefox/script.js:451), which may store favicon entries. The render model computes the tiles only; one lookup's effect on storage is `NewTab.NewTabPage.LookupFavicon`, and rendering's sequence of lookups is not modelled.
- SettingsPages.FirefoxSettingsPage.constructor: the mixed toggle starts disabled, matching the default record. The HTML's initial state is not part of this model, and `Initialize` settles the toggle either way.

## Findings

| source | as written | input that shows it | evidently intended | confidence | as-written member | corrected member |
|---|---|---|---|---|---|---|
| firefox/settings-script.js:177-184 | `clearFaviconCache` calls `window.MikuStorage.clearFaviconCache()`, which storage-db.js does not define, so the call always throws and the failure toast shows | any click on the clear-favicon button while some `favicon_<host>` entry is stored: the entry is still there afterwards | remove every `favicon_` entry of local storage and keep the rest, so the next lookup fetches afresh | high (not executed) | SettingsPages.FirefoxSettingsPage.ClearFaviconCache | Favicon.ClearFaviconCache |
| settings-script.js:118 | `showToast` ends with `}}`; the second brace closes nothing, so the script is a syntax error: no DOMContentLoaded listener is registered, nothing is loaded and no control saves | toggle blur on the Chrome options page of a fresh profile: the `settings` entry stays absent | the extra brace is absent: the page loads the stored record and each listener saves its field | high (not executed) | SettingsPages.ChromeSessionAsWritten | SettingsPages.ChromeSession |
