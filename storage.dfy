/**
 * `MikuStorage`: a thin wrapper over an embedded database made of named object
 * stores, each a map from key to stored value. The database is opened lazily on
 * the first operation; opening creates any of the four stores that is missing
 * and leaves the existing ones as they are.
 */
module Storage {
  import opened Values

  const SettingsStore := "settings"
  const ShortcutsStore := "shortcuts"
  const ImagesStore := "images"
  const TetoImagesStore := "tetoImages"
  const StoreNames: set<string> := {SettingsStore, ShortcutsStore, ImagesStore, TetoImagesStore}

  const SettingsKey := "userSettings"
  const ShortcutsKey := "userShortcuts"
  const CachedKey := "cached"

  /** Database contents: object store name to (key to value). */
  type Db = map<string, map<string, Value>>

  /** A transaction over a store the database does not have is rejected. */
  datatype Error = NotFoundError(storeName: string)

  datatype Result<T> = Ok(value: T) | Err(error: Error)

  /** The upgrade step of `init`: every missing store is created empty, no existing one is touched. */
  function Upgrade(db: Db): (r: Db)
    ensures r.Keys == db.Keys + StoreNames
    ensures forall s :: s in db ==> r[s] == db[s]
    ensures forall s :: s in r && s !in db ==> r[s] == map[]
  {
    db + map s | s in StoreNames && s !in db :: map[]
  }

  /** `get(store, key)`: the stored value, None (undefined) for a missing key. */
  function ReadKey(db: Db, store: string, key: string): (r: Result<Option<Value>>)
    ensures r.Err? <==> store !in db
    ensures r.Ok? && r.value.Some? ==> key in db[store] && r.value.value == db[store][key]
    ensures store in db && key !in db[store] ==> r == Ok(None)
    ensures store in db && key in db[store] ==> r == Ok(Some(db[store][key]))
  {
    if store !in db then Err(NotFoundError(store))
    else if key in db[store] then Ok(Some(db[store][key]))
    else Ok(None)
  }

  /**
   * `set(store, key, value)`: an upsert. Reading the key back gives the value,
   * and every other (store, key) pair reads as before.
   */
  function WriteKey(db: Db, store: string, key: string, v: Value): (r: Result<Db>)
    ensures r.Ok? <==> store in db
    ensures r.Ok? ==> r.value.Keys == db.Keys
    ensures r.Ok? ==> ReadKey(r.value, store, key) == Ok(Some(v))
    ensures r.Ok? ==> forall s, k :: s != store || k != key ==> ReadKey(r.value, s, k) == ReadKey(db, s, k)
  {
    if store !in db then Err(NotFoundError(store))
    else Ok(db[store := db[store][key := v]])
  }

  /**
   * `delete(store, key)`: the key reads as absent afterwards, nothing else
   * changes, and deleting a key that is not there succeeds without effect.
   */
  function DeleteKey(db: Db, store: string, key: string): (r: Result<Db>)
    ensures r.Ok? <==> store in db
    ensures r.Ok? ==> r.value.Keys == db.Keys
    ensures r.Ok? ==> ReadKey(r.value, store, key) == Ok(None)
    ensures r.Ok? ==> forall s, k :: s != store || k != key ==> ReadKey(r.value, s, k) == ReadKey(db, s, k)
    ensures store in db && key !in db[store] ==> r == Ok(db)
  {
    if store !in db then Err(NotFoundError(store))
    else
      var kept := db[store] - {key};
      assert key !in db[store] ==> kept == db[store] && db[store := kept] == db;
      Ok(db[store := kept])
  }

  /** `clear(store)`: that store is emptied and every other store is left alone. */
  function ClearStore(db: Db, store: string): (r: Result<Db>)
    ensures r.Ok? <==> store in db
    ensures r.Ok? ==> r.value.Keys == db.Keys
    ensures r.Ok? ==> forall k :: ReadKey(r.value, store, k) == Ok(None)
    ensures r.Ok? ==> forall s :: s in db && s != store ==> r.value[s] == db[s]
  {
    if store !in db then Err(NotFoundError(store))
    else Ok(db[store := map[]])
  }

  /** An open database has all four stores. */
  ghost predicate HasAllStores(db: Db) {
    StoreNames <= db.Keys
  }

  /** Opening an already upgraded database creates nothing: the upgrade is idempotent. */
  lemma UpgradeOfOpen(db: Db)
    requires HasAllStores(db)
    ensures Upgrade(db) == db
  {
    assert Upgrade(db).Keys == db.Keys;
  }

  /** The store `getCachedImages`, `saveCachedImages` and `clearImageCache` pick for a mode. */
  function ImageStore(isTeto: bool): string {
    if isTeto then TetoImagesStore else ImagesStore
  }

  // The helpers, as functions of an open database.

  /** `getSettings()`: the stored record, or `{}` when it is missing or falsy; never falsy itself. */
  function SettingsIn(db: Db): (r: Value)
    requires HasAllStores(db)
    ensures Truthy(r)
    ensures SettingsKey !in db[SettingsStore] || !Truthy(db[SettingsStore][SettingsKey]) ==> r == Obj(map[])
    ensures SettingsKey in db[SettingsStore] && Truthy(db[SettingsStore][SettingsKey]) ==> r == db[SettingsStore][SettingsKey]
  {
    OrElse(ReadKey(db, SettingsStore, SettingsKey).value, Obj(map[]))
  }

  /** `getShortcuts()`: the stored list, or `[]` when it is missing or falsy. */
  function ShortcutsIn(db: Db): (r: Value)
    requires HasAllStores(db)
    ensures Truthy(r)
    ensures ShortcutsKey !in db[ShortcutsStore] || !Truthy(db[ShortcutsStore][ShortcutsKey]) ==> r == Arr([])
    ensures ShortcutsKey in db[ShortcutsStore] && Truthy(db[ShortcutsStore][ShortcutsKey]) ==> r == db[ShortcutsStore][ShortcutsKey]
  {
    OrElse(ReadKey(db, ShortcutsStore, ShortcutsKey).value, Arr([]))
  }

  /** `getCachedImages(isTeto)`: the mode's cached array, or `[]` when it is missing or falsy. */
  function CachedImagesIn(db: Db, isTeto: bool): (r: Value)
    requires HasAllStores(db)
    ensures Truthy(r)
    ensures CachedKey !in db[ImageStore(isTeto)] || !Truthy(db[ImageStore(isTeto)][CachedKey]) ==> r == Arr([])
    ensures CachedKey in db[ImageStore(isTeto)] && Truthy(db[ImageStore(isTeto)][CachedKey]) ==> r == db[ImageStore(isTeto)][CachedKey]
  {
    OrElse(ReadKey(db, ImageStore(isTeto), CachedKey).value, Arr([]))
  }

  /** `getOtherData(key)`: any key of the settings store. */
  function OtherDataIn(db: Db, key: string): Option<Value>
    requires HasAllStores(db)
  {
    ReadKey(db, SettingsStore, key).value
  }

  function SaveSettingsTo(db: Db, settings: Value): (r: Db)
    requires HasAllStores(db)
    ensures HasAllStores(r)
  {
    WriteKey(db, SettingsStore, SettingsKey, settings).value
  }

  function SaveShortcutsTo(db: Db, shortcuts: Value): (r: Db)
    requires HasAllStores(db)
    ensures HasAllStores(r)
  {
    WriteKey(db, ShortcutsStore, ShortcutsKey, shortcuts).value
  }

  function SaveCachedImagesTo(db: Db, images: Value, isTeto: bool): (r: Db)
    requires HasAllStores(db)
    ensures HasAllStores(r)
  {
    WriteKey(db, ImageStore(isTeto), CachedKey, images).value
  }

  function ClearImageCacheIn(db: Db, isTeto: bool): (r: Db)
    requires HasAllStores(db)
    ensures HasAllStores(r)
  {
    DeleteKey(db, ImageStore(isTeto), CachedKey).value
  }

  function ClearAllImageCachesIn(db: Db): (r: Db)
    requires HasAllStores(db)
    ensures HasAllStores(r)
  {
    ClearStore(ClearStore(db, ImagesStore).value, TetoImagesStore).value
  }

  function SaveOtherDataTo(db: Db, key: string, v: Value): (r: Db)
    requires HasAllStores(db)
    ensures HasAllStores(r)
  {
    WriteKey(db, SettingsStore, key, v).value
  }

  /** Saving a record and reading it back returns it (a truthy record; every object is). */
  lemma SettingsRoundTrip(db: Db, settings: Value)
    requires HasAllStores(db) && Truthy(settings)
    ensures SettingsIn(SaveSettingsTo(db, settings)) == settings
  {
    assert ReadKey(SaveSettingsTo(db, settings), SettingsStore, SettingsKey) == Ok(Some(settings));
  }

  /** Saving the shortcut list and reading it back returns it, order included. */
  lemma ShortcutsRoundTrip(db: Db, shortcuts: seq<Value>)
    requires HasAllStores(db)
    ensures ShortcutsIn(SaveShortcutsTo(db, Arr(shortcuts))) == Arr(shortcuts)
  {
    assert ReadKey(SaveShortcutsTo(db, Arr(shortcuts)), ShortcutsStore, ShortcutsKey) == Ok(Some(Arr(shortcuts)));
  }

  /**
   * `saveCachedImages(x, t)` then `getCachedImages(t)` gives `x` back (`[]` if
   * `x` is falsy), and the other mode's cache is untouched.
   */
  lemma CachedImagesRoundTrip(db: Db, images: Value, isTeto: bool)
    requires HasAllStores(db)
    ensures CachedImagesIn(SaveCachedImagesTo(db, images, isTeto), isTeto) == (if Truthy(images) then images else Arr([]))
    ensures CachedImagesIn(SaveCachedImagesTo(db, images, isTeto), !isTeto) == CachedImagesIn(db, !isTeto)
    ensures SettingsIn(SaveCachedImagesTo(db, images, isTeto)) == SettingsIn(db)
    ensures ShortcutsIn(SaveCachedImagesTo(db, images, isTeto)) == ShortcutsIn(db)
  {
    var r := SaveCachedImagesTo(db, images, isTeto);
    assert ReadKey(r, ImageStore(isTeto), CachedKey) == Ok(Some(images));
    assert ReadKey(r, ImageStore(!isTeto), CachedKey) == ReadKey(db, ImageStore(!isTeto), CachedKey);
    assert ReadKey(r, SettingsStore, SettingsKey) == ReadKey(db, SettingsStore, SettingsKey);
    assert ReadKey(r, ShortcutsStore, ShortcutsKey) == ReadKey(db, ShortcutsStore, ShortcutsKey);
  }

  /** `clearImageCache(t)` removes that mode's `cached` key and nothing else. */
  lemma ClearImageCacheOnlyThatMode(db: Db, isTeto: bool)
    requires HasAllStores(db)
    ensures CachedImagesIn(ClearImageCacheIn(db, isTeto), isTeto) == Arr([])
    ensures CachedImagesIn(ClearImageCacheIn(db, isTeto), !isTeto) == CachedImagesIn(db, !isTeto)
    ensures forall k :: k != CachedKey ==> ReadKey(ClearImageCacheIn(db, isTeto), ImageStore(isTeto), k) == ReadKey(db, ImageStore(isTeto), k)
    ensures ClearImageCacheIn(db, isTeto)[SettingsStore] == db[SettingsStore]
    ensures ClearImageCacheIn(db, isTeto)[ShortcutsStore] == db[ShortcutsStore]
  {
    var r := ClearImageCacheIn(db, isTeto);
    assert ReadKey(r, ImageStore(!isTeto), CachedKey) == ReadKey(db, ImageStore(!isTeto), CachedKey);
    assert ReadKey(r, ImageStore(isTeto), CachedKey) == Ok(None);
  }

  /** `clearAllImageCaches()` empties both image stores and leaves settings and shortcuts alone. */
  lemma ClearAllImageCachesEmptiesBoth(db: Db)
    requires HasAllStores(db)
    ensures ClearAllImageCachesIn(db)[ImagesStore] == map[]
    ensures ClearAllImageCachesIn(db)[TetoImagesStore] == map[]
    ensures CachedImagesIn(ClearAllImageCachesIn(db), false) == Arr([])
    ensures CachedImagesIn(ClearAllImageCachesIn(db), true) == Arr([])
    ensures ClearAllImageCachesIn(db)[SettingsStore] == db[SettingsStore]
    ensures ClearAllImageCachesIn(db)[ShortcutsStore] == db[ShortcutsStore]
  {
    var once := ClearStore(db, ImagesStore).value;
    var r := ClearStore(once, TetoImagesStore).value;
    assert ReadKey(r, ImagesStore, CachedKey) == Ok(None) by {
      assert r[ImagesStore] == once[ImagesStore];
      assert ReadKey(once, ImagesStore, CachedKey) == Ok(None);
    }
    assert ReadKey(r, TetoImagesStore, CachedKey) == Ok(None);
  }

  /**
   * `saveOtherData(k, v)` then `getOtherData(k)` gives `v`; for any key other
   * than the settings record's own, `getSettings()` is unchanged even though
   * both live in the settings store.
   */
  lemma OtherDataRoundTrip(db: Db, key: string, v: Value)
    requires HasAllStores(db)
    ensures OtherDataIn(SaveOtherDataTo(db, key, v), key) == Some(v)
    ensures key != SettingsKey ==> SettingsIn(SaveOtherDataTo(db, key, v)) == SettingsIn(db)
  {
    var r := SaveOtherDataTo(db, key, v);
    if key != SettingsKey {
      assert ReadKey(r, SettingsStore, SettingsKey) == ReadKey(db, SettingsStore, SettingsKey);
    }
  }

  /** The database behind `MikuStorage`, with its lazily isOpen connection. */
  class MikuStorage {
    /** Whether `this.db` holds an open connection. */
    var isOpen: bool
    /** The contents of the database on disk. */
    var stores: Db

    ghost predicate Valid()
      reads this
    {
      isOpen ==> HasAllStores(stores)
    }

    /** `new MikuStorage()` over whatever the origin's database already holds. */
    constructor(persisted: Db)
      ensures Valid() && !isOpen && stores == persisted
    {
      isOpen := false;
      stores := persisted;
    }

    /** `init()`: open the database, creating missing stores. */
    method Init()
      modifies this
      ensures Valid() && isOpen
      ensures stores == Upgrade(old(stores))
    {
      stores := Upgrade(stores);
      isOpen := true;
    }

    /** `if (!this.db) await this.init();` */
    method EnsureOpen()
      requires Valid()
      modifies this
      ensures Valid() && isOpen && HasAllStores(stores)
      ensures stores == Upgrade(old(stores))
    {
      if !isOpen {
        Init();
      } else {
        assert Upgrade(stores) == stores;
      }
    }

    method Get(storeName: string, key: string) returns (r: Result<Option<Value>>)
      requires Valid()
      modifies this
      ensures Valid() && isOpen && stores == Upgrade(old(stores))
      ensures r == ReadKey(stores, storeName, key)
    {
      EnsureOpen();
      r := ReadKey(stores, storeName, key);
    }

    /** Resolves to the key, as a put request does. */
    method Set(storeName: string, key: string, value: Value) returns (r: Result<string>)
      requires Valid()
      modifies this
      ensures Valid() && isOpen
      ensures WriteKey(Upgrade(old(stores)), storeName, key, value).Ok? ==>
                r == Ok(key) && stores == WriteKey(Upgrade(old(stores)), storeName, key, value).value
      ensures WriteKey(Upgrade(old(stores)), storeName, key, value).Err? ==>
                r == Err(NotFoundError(storeName)) && stores == Upgrade(old(stores))
    {
      EnsureOpen();
      var w := WriteKey(stores, storeName, key, value);
      if w.Ok? {
        stores := w.value;
        r := Ok(key);
      } else {
        r := Err(w.error);
      }
    }

    method Delete(storeName: string, key: string) returns (r: Result<()>)
      requires Valid()
      modifies this
      ensures Valid() && isOpen
      ensures DeleteKey(Upgrade(old(stores)), storeName, key).Ok? ==>
                r == Ok(()) && stores == DeleteKey(Upgrade(old(stores)), storeName, key).value
      ensures DeleteKey(Upgrade(old(stores)), storeName, key).Err? ==>
                r == Err(NotFoundError(storeName)) && stores == Upgrade(old(stores))
    {
      EnsureOpen();
      var d := DeleteKey(stores, storeName, key);
      if d.Ok? {
        stores := d.value;
        r := Ok(());
      } else {
        r := Err(d.error);
      }
    }

    method Clear(storeName: string) returns (r: Result<()>)
      requires Valid()
      modifies this
      ensures Valid() && isOpen
      ensures ClearStore(Upgrade(old(stores)), storeName).Ok? ==>
                r == Ok(()) && stores == ClearStore(Upgrade(old(stores)), storeName).value
      ensures ClearStore(Upgrade(old(stores)), storeName).Err? ==>
                r == Err(NotFoundError(storeName)) && stores == Upgrade(old(stores))
    {
      EnsureOpen();
      var c := ClearStore(stores, storeName);
      if c.Ok? {
        stores := c.value;
        r := Ok(());
      } else {
        r := Err(c.error);
      }
    }

    method GetSettings() returns (settings: Value)
      requires Valid()
      modifies this
      ensures Valid() && isOpen && stores == Upgrade(old(stores))
      ensures settings == SettingsIn(stores)
    {
      var r := Get(SettingsStore, SettingsKey);
      settings := OrElse(r.value, Obj(map[]));
    }

    method SaveSettings(settings: Value)
      requires Valid()
      modifies this
      ensures Valid() && isOpen
      ensures stores == SaveSettingsTo(Upgrade(old(stores)), settings)
    {
      var _ := Set(SettingsStore, SettingsKey, settings);
    }

    method GetShortcuts() returns (shortcuts: Value)
      requires Valid()
      modifies this
      ensures Valid() && isOpen && stores == Upgrade(old(stores))
      ensures shortcuts == ShortcutsIn(stores)
    {
      var r := Get(ShortcutsStore, ShortcutsKey);
      shortcuts := OrElse(r.value, Arr([]));
    }

    method SaveShortcuts(shortcuts: Value)
      requires Valid()
      modifies this
      ensures Valid() && isOpen
      ensures stores == SaveShortcutsTo(Upgrade(old(stores)), shortcuts)
    {
      var _ := Set(ShortcutsStore, ShortcutsKey, shortcuts);
    }

    method GetCachedImages(isTeto: bool) returns (images: Value)
      requires Valid()
      modifies this
      ensures Valid() && isOpen && stores == Upgrade(old(stores))
      ensures images == CachedImagesIn(stores, isTeto)
    {
      var r := Get(ImageStore(isTeto), CachedKey);
      images := OrElse(r.value, Arr([]));
    }

    method SaveCachedImages(images: Value, isTeto: bool)
      requires Valid()
      modifies this
      ensures Valid() && isOpen
      ensures stores == SaveCachedImagesTo(Upgrade(old(stores)), images, isTeto)
    {
      var _ := Set(ImageStore(isTeto), CachedKey, images);
    }

    method ClearImageCache(isTeto: bool)
      requires Valid()
      modifies this
      ensures Valid() && isOpen
      ensures stores == ClearImageCacheIn(Upgrade(old(stores)), isTeto)
    {
      var _ := Delete(ImageStore(isTeto), CachedKey);
    }

    method ClearAllImageCaches()
      requires Valid()
      modifies this
      ensures Valid() && isOpen
      ensures stores == ClearAllImageCachesIn(Upgrade(old(stores)))
    {
      var _ := Clear(ImagesStore);
      var _ := Clear(TetoImagesStore);
    }

    method GetOtherData(key: string) returns (v: Option<Value>)
      requires Valid()
      modifies this
      ensures Valid() && isOpen && stores == Upgrade(old(stores))
      ensures v == OtherDataIn(stores, key)
    {
      var r := Get(SettingsStore, key);
      v := r.value;
    }

    method SaveOtherData(key: string, v: Value)
      requires Valid()
      modifies this
      ensures Valid() && isOpen
      ensures stores == SaveOtherDataTo(Upgrade(old(stores)), key, v)
    {
      var _ := Set(SettingsStore, key, v);
    }
  }
}
