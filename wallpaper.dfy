/**
 * Choosing and loading the new-tab wallpaper (`loadRandomImage`,
 * `loadRandomCachedImage` and `applyBackgroundDisplayMode` in script.js and
 * firefox/script.js). The network, the clock-free random source and the
 * FileReader are inputs: the text of the count file, the random numbers and
 * the data URL of the downloaded picture.
 */
module Wallpaper {
  import opened Values
  import opened Text
  import opened ImageCache

  const RepoBase: string := "https://raw.githubusercontent.com/MalikHw/MikuTheme/main"

  /** The files and the local-storage keys one visual mode uses. */
  datatype ModeKeys = ModeKeys(
    countFile: string,
    imagesFolder: string,
    cacheKey: string,
    cacheUrlKey: string,
    allCachedKey: string)

  function KeysFor(tetoMode: bool): ModeKeys {
    if tetoMode then
      ModeKeys(RepoBase + "/images-teto-count.txt", RepoBase + "/images-teto",
               "cachedTetoImage", "cachedTetoImageUrl", "allCachedTetoImages")
    else
      ModeKeys(RepoBase + "/images-count.txt", RepoBase + "/images",
               "cachedImage", "cachedImageUrl", "allCachedImages")
  }

  /** The two modes never share a storage key, so their caches are independent. */
  lemma ModeKeysDisjoint()
    ensures var m, t := KeysFor(false), KeysFor(true);
      {m.cacheKey, m.cacheUrlKey, m.allCachedKey} !! {t.cacheKey, t.cacheUrlKey, t.allCachedKey}
  {
  }

  /**
   * `parseInt(text.trim())` as an image count: None when the result is NaN or
   * not positive, which sends the page to its cached pictures.
   */
  function ImageCount(text: string): (r: Option<nat>)
    ensures r.Some? ==> r.value > 0 && ParseInt(Trim(text)) == Some(r.value)
    ensures r.None? ==> ParseInt(Trim(text)).None? || ParseInt(Trim(text)).value <= 0
  {
    match ParseInt(Trim(text))
    case None => None
    case Some(n) => if n <= 0 then None else Some(n)
  }

  lemma TrimEndDigitsNewline(s: string)
    requires s != []
    requires forall i :: 0 <= i < |s| ==> '0' <= s[i] <= '9'
    ensures TrimEnd(s + "\n") == s
  {
    DigitNotWhitespace(s[|s| - 1]);
    assert (s + "\n")[..|s + "\n"| - 1] == s;
  }

  lemma TrimDigitsNewline(s: string)
    requires s != []
    requires forall i :: 0 <= i < |s| ==> '0' <= s[i] <= '9'
    ensures Trim(s + "\n") == s
  {
    DigitNotWhitespace(s[0]);
    assert (s + "\n")[0] == s[0];
    assert TrimStart(s + "\n") == s + "\n";
    TrimEndDigitsNewline(s);
  }

  /** A count file holding a positive number and a line break yields that number. */
  lemma ImageCountOfCountFile(n: nat)
    requires n > 0
    ensures ImageCount(NatToString(n) + "\n") == Some(n)
  {
    TrimDigitsNewline(NatToString(n));
    ParseIntOfNatToString(n);
  }

  /** `Math.floor(random * n)` for a random number in [0, 1): an index below n. */
  function RandomIndex(n: nat, rand: real): (i: nat)
    requires n > 0 && 0.0 <= rand < 1.0
    ensures i < n
    ensures i as real <= rand * n as real < i as real + 1.0
  {
    var x := rand * n as real;
    assert 0.0 <= x < n as real;
    x.Floor
  }

  /** Every index is drawn by some random number: the one at the left end of its interval. */
  lemma RandomIndexReachesAll(n: nat, i: nat)
    requires i < n
    ensures var rand := i as real / n as real;
      0.0 <= rand < 1.0 && RandomIndex(n, rand) == i
  {
    var rand := i as real / n as real;
    assert rand * n as real == i as real;
  }

  /** `Math.floor(Math.random() * imageCount) + 1`: a picture number in 1..count. */
  function ImageNumber(count: nat, rand: real): (k: nat)
    requires count > 0 && 0.0 <= rand < 1.0
    ensures 1 <= k <= count
  {
    RandomIndex(count, rand) + 1
  }

  /** `${imagesFolder}/${randomNum}.png` */
  function ImageUrl(folder: string, k: nat): (url: string)
    ensures StartsWith(url, folder + "/")
    ensures |url| > |folder| + 5 && url[|url| - 4..] == ".png"
  {
    folder + "/" + NatToString(k) + ".png"
  }

  /** Different picture numbers give different URLs, so the cache tells pictures apart. */
  lemma ImageUrlInjective(folder: string, k1: nat, k2: nat)
    requires ImageUrl(folder, k1) == ImageUrl(folder, k2)
    ensures k1 == k2
  {
    var a, b := NatToString(k1), NatToString(k2);
    var u := ImageUrl(folder, k1);
    assert |a| == |b|;
    assert a == u[|folder| + 1..|folder| + 1 + |a|];
    assert b == u[|folder| + 1..|folder| + 1 + |b|];
    ParseIntOfNatToString(k1);
    ParseIntOfNatToString(k2);
  }

  /** One mode's part of local storage: the single last picture and the array of all of them. */
  datatype ModeCache = ModeCache(slotData: Option<string>, slotUrl: Option<string>, all: seq<CachedImage>)

  /** The wallpaper keys of local storage, both modes. */
  datatype WallpaperStore = WallpaperStore(miku: ModeCache, teto: ModeCache)

  function CacheFor(store: WallpaperStore, tetoMode: bool): ModeCache {
    if tetoMode then store.teto else store.miku
  }

  function WithCache(store: WallpaperStore, tetoMode: bool, c: ModeCache): (r: WallpaperStore)
    ensures CacheFor(r, tetoMode) == c
    ensures CacheFor(r, !tetoMode) == CacheFor(store, !tetoMode)
  {
    if tetoMode then store.(teto := c) else store.(miku := c)
  }

  /** `cached[cacheKey] && cached[cacheUrlKey] === imageUrl`: truthy data, stored for exactly this URL. */
  function SlotHit(c: ModeCache, url: string): (hit: bool)
    ensures hit <==> c.slotData.Some? && Truthy(Str(c.slotData.value)) && c.slotUrl == Some(url)
  {
    c.slotData.Some? && c.slotData.value != "" && c.slotUrl == Some(url)
  }

  /**
   * `loadRandomCachedImage`: a random entry's data when the array is not
   * empty, nothing (the gradient stays) when it is.
   */
  function PickCached(cached: seq<CachedImage>, rand: real): (r: Option<string>)
    requires 0.0 <= rand < 1.0
    ensures r.None? <==> cached == []
    ensures r.Some? ==> exists i :: 0 <= i < |cached| && r.value == cached[i].data
  {
    if cached == [] then None
    else
      var i := RandomIndex(|cached|, rand);
      Some(cached[i].data)
  }

  /** What the background layer shows. */
  datatype Background = CustomImage(src: Value) | Picture(data: string) | Gradient

  /** The picked entry's data, or the gradient when the array was empty. */
  function ShowCached(picked: Option<string>): (r: Background)
    ensures r == Gradient <==> picked.None?
    ensures picked.Some? ==> r == Picture(picked.value)
  {
    if picked.Some? then Picture(picked.value) else Gradient
  }

  /** The end state of one `loadRandomImage` run. */
  datatype LoadOutcome = LoadOutcome(background: Background, store: WallpaperStore, downloaded: bool)

  /**
   * One run of `loadRandomImage` with the mode's settings read from the
   * record. `countText` is the count file's body (None: the fetch threw),
   * `image` the downloaded picture as a data URL (None: the download threw),
   * `rand` and `fallbackRand` the two random draws.
   */
  function LoadRandomImage(settings: Record, store: WallpaperStore, countText: Option<string>, rand: real,
                           image: Option<string>, fallbackRand: real): (r: LoadOutcome)
    requires 0.0 <= rand < 1.0 && 0.0 <= fallbackRand < 1.0
    ensures !r.downloaded ==> r.store == store
    ensures Flag(settings, "customBg") ==> r == LoadOutcome(CustomImage(settings["customBg"]), store, false)
    ensures r.downloaded ==> image.Some? && r.background == Picture(image.value)
    ensures var teto := Flag(settings, "tetoMode");
      r.downloaded ==>
        && CacheFor(r.store, !teto) == CacheFor(store, !teto)
        && CacheFor(r.store, teto).slotData == image
        && CacheFor(r.store, teto).slotUrl.Some?
        && CacheFor(r.store, teto).all ==
             Insert(CacheFor(store, teto).all, CacheFor(r.store, teto).slotUrl.value, image.value, teto)
    ensures var teto := Flag(settings, "tetoMode");
      !Flag(settings, "customBg") && (countText.None? || ImageCount(countText.value).None?) ==>
        r == LoadOutcome(ShowCached(PickCached(CacheFor(store, teto).all, fallbackRand)), store, false)
    ensures var teto := Flag(settings, "tetoMode");
      !Flag(settings, "customBg") && countText.Some? && ImageCount(countText.value).Some? ==>
        var cache, url := CacheFor(store, teto), ImageUrl(KeysFor(teto).imagesFolder, ImageNumber(ImageCount(countText.value).value, rand));
        && (SlotHit(cache, url) ==> r == LoadOutcome(Picture(cache.slotData.value), store, false))
        && (!SlotHit(cache, url) && image.None? ==> r == LoadOutcome(ShowCached(PickCached(cache.all, fallbackRand)), store, false))
        && (r.downloaded <==> !SlotHit(cache, url) && image.Some?)
        && (r.downloaded ==> CacheFor(r.store, teto).slotUrl == Some(url))
  {
    var teto := Flag(settings, "tetoMode");
    var keys := KeysFor(teto);
    var cache := CacheFor(store, teto);
    var fallback := LoadOutcome(ShowCached(PickCached(cache.all, fallbackRand)), store, false);
    if Flag(settings, "customBg") then LoadOutcome(CustomImage(settings["customBg"]), store, false)
    else if countText.None? then fallback
    else match ImageCount(countText.value)
      case None => fallback
      case Some(count) =>
        var url := ImageUrl(keys.imagesFolder, ImageNumber(count, rand));
        if SlotHit(cache, url) then LoadOutcome(Picture(cache.slotData.value), store, false)
        else match image
          case None => fallback
          case Some(data) =>
            var updated := ModeCache(Some(data), Some(url), Insert(cache.all, url, data, teto));
            LoadOutcome(Picture(data), WithCache(store, teto, updated), true)
  }

  /**
   * A count that is NaN or not positive means no download: the page falls back
   * to a cached picture and storage stays as it was.
   */
  lemma InvalidCountFallsBack(settings: Record, store: WallpaperStore, text: string, rand: real,
                              image: Option<string>, fallbackRand: real)
    requires 0.0 <= rand < 1.0 && 0.0 <= fallbackRand < 1.0
    requires !Flag(settings, "customBg")
    requires ParseInt(Trim(text)).None? || ParseInt(Trim(text)).value <= 0
    ensures var r := LoadRandomImage(settings, store, Some(text), rand, image, fallbackRand);
      && !r.downloaded && r.store == store
      && r.background == ShowCached(PickCached(CacheFor(store, Flag(settings, "tetoMode")).all, fallbackRand))
  {
  }

  /**
   * When the single slot holds data for exactly the chosen URL, that data is
   * shown, nothing is downloaded and the cached array is untouched.
   */
  lemma SlotHitSkipsDownload(settings: Record, store: WallpaperStore, text: string, count: nat, rand: real,
                             image: Option<string>, fallbackRand: real)
    requires 0.0 <= rand < 1.0 && 0.0 <= fallbackRand < 1.0
    requires !Flag(settings, "customBg") && ImageCount(text) == Some(count)
    requires var teto := Flag(settings, "tetoMode");
      SlotHit(CacheFor(store, teto), ImageUrl(KeysFor(teto).imagesFolder, ImageNumber(count, rand)))
    ensures var r := LoadRandomImage(settings, store, Some(text), rand, image, fallbackRand);
      && !r.downloaded && r.store == store
      && r.background == Picture(CacheFor(store, Flag(settings, "tetoMode")).slotData.value)
  {
  }

  /**
   * A successful download lands in both the single slot and the array, under
   * the URL of the picture the draw chose, numbered within the count.
   */
  lemma DownloadRecordsPicture(settings: Record, store: WallpaperStore, text: string, count: nat, rand: real,
                               data: string, fallbackRand: real)
    requires 0.0 <= rand < 1.0 && 0.0 <= fallbackRand < 1.0
    requires !Flag(settings, "customBg") && ImageCount(text) == Some(count)
    requires var teto := Flag(settings, "tetoMode");
      !SlotHit(CacheFor(store, teto), ImageUrl(KeysFor(teto).imagesFolder, ImageNumber(count, rand)))
    ensures var teto := Flag(settings, "tetoMode");
      var r := LoadRandomImage(settings, store, Some(text), rand, Some(data), fallbackRand);
      && r.downloaded
      && r.background == Picture(data)
      && CacheFor(r.store, teto).slotUrl == Some(ImageUrl(KeysFor(teto).imagesFolder, ImageNumber(count, rand)))
      && 1 <= ImageNumber(count, rand) <= count
      && Contains(CacheFor(r.store, teto).all, CacheFor(r.store, teto).slotUrl.value)
  {
    var teto := Flag(settings, "tetoMode");
    var url := ImageUrl(KeysFor(teto).imagesFolder, ImageNumber(count, rand));
    InsertThenContains(CacheFor(store, teto).all, url, data, teto);
  }

  /** The count file as the repository ships it, a number and a line break, reaches the download. */
  lemma CountFileDownloads(settings: Record, store: WallpaperStore, count: nat, rand: real,
                           data: string, fallbackRand: real)
    requires 0.0 <= rand < 1.0 && 0.0 <= fallbackRand < 1.0
    requires !Flag(settings, "customBg") && count > 0
    requires var teto := Flag(settings, "tetoMode");
      !SlotHit(CacheFor(store, teto), ImageUrl(KeysFor(teto).imagesFolder, ImageNumber(count, rand)))
    ensures LoadRandomImage(settings, store, Some(NatToString(count) + "\n"), rand, Some(data), fallbackRand).downloaded
  {
    ImageCountOfCountFile(count);
  }

  /** Loading never takes a mode's array past its capacity. */
  lemma LoadKeepsCapacity(settings: Record, store: WallpaperStore, countText: Option<string>, rand: real,
                          image: Option<string>, fallbackRand: real)
    requires 0.0 <= rand < 1.0 && 0.0 <= fallbackRand < 1.0
    requires |store.miku.all| <= Capacity(false) && |store.teto.all| <= Capacity(true)
    ensures var r := LoadRandomImage(settings, store, countText, rand, image, fallbackRand);
      |r.store.miku.all| <= Capacity(false) && |r.store.teto.all| <= Capacity(true)
  {
    var r := LoadRandomImage(settings, store, countText, rand, image, fallbackRand);
    var teto := Flag(settings, "tetoMode");
    if r.downloaded {
      InsertWithinCapacity(CacheFor(store, teto).all, CacheFor(r.store, teto).slotUrl.value, image.value, teto);
    }
  }

  /** The CSS background properties a display mode sets. */
  datatype Style = Style(size: string, position: string, repeat: string)

  const CoverStyle: Style := Style("cover", "center", "no-repeat")

  /** The table in script.js: every entry names its repeat value. */
  const ChromeModes: map<string, Style> := map[
    "cover" := CoverStyle,
    "contain" := Style("contain", "center", "no-repeat"),
    "fill" := Style("100% 100%", "center", "no-repeat"),
    "stretch" := Style("100% 100%", "center", "no-repeat"),
    "tile" := Style("auto", "top left", "repeat")]

  /** An entry of the table in firefox/script.js, where only `tile` names a repeat value. */
  datatype ModeEntry = ModeEntry(size: string, position: string, repeat: Option<string>)

  const FirefoxModes: map<string, ModeEntry> := map[
    "cover" := ModeEntry("cover", "center", None),
    "contain" := ModeEntry("contain", "center", None),
    "fill" := ModeEntry("100% 100%", "center", None),
    "stretch" := ModeEntry("100% 100%", "center", None),
    "tile" := ModeEntry("auto", "top left", Some("repeat"))]

  /** The table key `settings.bgDisplayMode` selects, when it is a string. */
  function ModeName(mode: Option<Value>): Option<string> {
    if mode.Some? && mode.value.Str? then Some(mode.value.s) else None
  }

  /** `modes[settings.bgDisplayMode] || modes.cover` in script.js. */
  function ChromeDisplayStyle(mode: Option<Value>): (st: Style)
    ensures st.repeat == (if mode == Some(Str("tile")) then "repeat" else "no-repeat")
    ensures ModeName(mode).None? || ModeName(mode).value !in ChromeModes.Keys ==> st == CoverStyle
    ensures ModeName(mode).Some? && ModeName(mode).value in ChromeModes.Keys ==> st == ChromeModes[ModeName(mode).value]
  {
    var name := ModeName(mode);
    if name.Some? && name.value in ChromeModes then ChromeModes[name.value] else ChromeModes["cover"]
  }

  /** The same lookup in firefox/script.js, with `mode.repeat || 'no-repeat'`. */
  function FirefoxDisplayStyle(mode: Option<Value>): (st: Style)
    ensures st.repeat == (if mode == Some(Str("tile")) then "repeat" else "no-repeat")
    ensures ModeName(mode).None? || ModeName(mode).value !in FirefoxModes.Keys ==> st == CoverStyle
  {
    var name := ModeName(mode);
    var entry := if name.Some? && name.value in FirefoxModes then FirefoxModes[name.value] else FirefoxModes["cover"];
    var repeat := if entry.repeat.Some? && entry.repeat.value != "" then entry.repeat.value else "no-repeat";
    Style(entry.size, entry.position, repeat)
  }

  /** The two tables, one with explicit repeats and one with a default, style every mode alike. */
  lemma DisplayStylesAgree(mode: Option<Value>)
    ensures ChromeDisplayStyle(mode) == FirefoxDisplayStyle(mode)
  {
  }
}
