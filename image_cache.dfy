/**
 * The array of downloaded wallpapers kept per visual mode. A new download is
 * appended unless its URL is already there; when the array has reached the
 * mode's capacity, the first of the entries with the longest data is dropped
 * first. The same block appears in script.js and in firefox/script.js.
 */
module ImageCache {

  /** One cached wallpaper: where it came from, its data URL and that URL's length. */
  datatype CachedImage = CachedImage(url: string, data: string, size: int)

  /** A finished download waiting to be recorded. */
  datatype Download = Download(url: string, data: string)

  const DefaultCapacity: nat := 20
  const TetoCapacity: nat := 10

  /** `settings.tetoMode ? 10 : 20` */
  function Capacity(tetoMode: bool): nat {
    if tetoMode then TetoCapacity else DefaultCapacity
  }

  /** `cachedArray[i]?.data?.length || 0`, the measure eviction compares. */
  function DataLength(img: CachedImage): nat {
    |img.data|
  }

  /** The entry `push` appends for a download. */
  function EntryFor(url: string, data: string): CachedImage {
    CachedImage(url, data, |data|)
  }

  /** `cachedArray.some(img => img.url === imageUrl)` */
  predicate Contains(cached: seq<CachedImage>, url: string) {
    exists i :: 0 <= i < |cached| && cached[i].url == url
  }

  /** No two entries share a URL. */
  ghost predicate DistinctUrls(cached: seq<CachedImage>) {
    forall i, j :: 0 <= i < j < |cached| ==> cached[i].url != cached[j].url
  }

  /** `k` is the lowest index among the entries whose data is longest. */
  ghost predicate IsFirstLargest(cached: seq<CachedImage>, k: nat) {
    && k < |cached|
    && (forall j :: 0 <= j < |cached| ==> DataLength(cached[j]) <= DataLength(cached[k]))
    && (forall j :: 0 <= j < k ==> DataLength(cached[j]) < DataLength(cached[k]))
  }

  /** At most one index is the first largest. */
  lemma FirstLargestUnique(cached: seq<CachedImage>, k1: nat, k2: nat)
    requires IsFirstLargest(cached, k1) && IsFirstLargest(cached, k2)
    ensures k1 == k2
  {
    // both are longest, so neither can lie strictly before the other
    assert DataLength(cached[k1]) == DataLength(cached[k2]);
  }

  /**
   * The index the scan settles on, defined prefix by prefix as the scan walks:
   * a later entry replaces the candidate only when it is strictly longer.
   */
  function FirstLargest(cached: seq<CachedImage>): (k: nat)
    requires |cached| > 0
    ensures IsFirstLargest(cached, k)
  {
    if |cached| == 1 then 0
    else
      var k := FirstLargest(cached[..|cached| - 1]);
      if DataLength(cached[|cached| - 1]) > DataLength(cached[k]) then |cached| - 1 else k
  }

  /** `cachedArray.splice(k, 1)` on a valid index. */
  function Without(cached: seq<CachedImage>, k: nat): (r: seq<CachedImage>)
    requires k < |cached|
    ensures |r| == |cached| - 1
    ensures forall j :: 0 <= j < k ==> r[j] == cached[j]
    ensures forall j :: k <= j < |r| ==> r[j] == cached[j + 1]
  {
    cached[..k] + cached[k + 1..]
  }

  /** What the cached array is once a download of `url` has been recorded. */
  function Insert(cached: seq<CachedImage>, url: string, data: string, tetoMode: bool): seq<CachedImage> {
    if Contains(cached, url) then cached
    else if |cached| >= Capacity(tetoMode) then Without(cached, FirstLargest(cached)) + [EntryFor(url, data)]
    else cached + [EntryFor(url, data)]
  }

  /** The scan of the eviction block: the first index of maximal data length. */
  method FindLargestIndex(cachedArray: seq<CachedImage>) returns (largestIndex: nat)
    requires |cachedArray| > 0
    ensures IsFirstLargest(cachedArray, largestIndex)
  {
    largestIndex := 0;
    var largestSize := DataLength(cachedArray[0]);
    var i := 1;
    while i < |cachedArray|
      invariant 1 <= i <= |cachedArray|
      invariant largestIndex < i
      invariant largestSize == DataLength(cachedArray[largestIndex])
      invariant forall j :: 0 <= j < i ==> DataLength(cachedArray[j]) <= largestSize
      invariant forall j :: 0 <= j < largestIndex ==> DataLength(cachedArray[j]) < largestSize
    {
      var size := DataLength(cachedArray[i]);
      if size > largestSize {
        largestSize := size;
        largestIndex := i;
      }
      i := i + 1;
    }
  }

  /**
   * Records a finished download in the array read from storage: skipped when
   * the URL is already there, otherwise evict-if-full and append. `written`
   * says whether the array is saved back.
   */
  method InsertCachedImage(cachedArray: seq<CachedImage>, imageUrl: string, base64data: string, tetoMode: bool)
    returns (result: seq<CachedImage>, written: bool)
    ensures written <==> !Contains(cachedArray, imageUrl)
    ensures result == Insert(cachedArray, imageUrl, base64data, tetoMode)
  {
    result := cachedArray;
    written := !Contains(result, imageUrl);
    if written {
      if |result| >= Capacity(tetoMode) {
        var largestIndex := FindLargestIndex(result);
        FirstLargestUnique(result, largestIndex, FirstLargest(result));
        result := result[..largestIndex] + result[largestIndex + 1..];
      }
      result := result + [EntryFor(imageUrl, base64data)];
    }
  }

  /** Recording a URL already present leaves the array exactly as it was. */
  lemma InsertPresentUnchanged(cached: seq<CachedImage>, url: string, data: string, tetoMode: bool)
    requires Contains(cached, url)
    ensures Insert(cached, url, data, tetoMode) == cached
  {
  }

  /** Below capacity a new URL grows the array by one, at the end, earlier entries in order. */
  lemma InsertBelowCapacity(cached: seq<CachedImage>, url: string, data: string, tetoMode: bool)
    requires !Contains(cached, url) && |cached| < Capacity(tetoMode)
    ensures |Insert(cached, url, data, tetoMode)| == |cached| + 1
    ensures Insert(cached, url, data, tetoMode)[..|cached|] == cached
    ensures Insert(cached, url, data, tetoMode)[|cached|] == CachedImage(url, data, |data|)
  {
    assert (cached + [EntryFor(url, data)])[..|cached|] == cached;
  }

  /**
   * At or above capacity a new URL costs exactly one entry, the first of the
   * longest ones; the survivors keep their order and the new entry comes last.
   */
  lemma InsertAtCapacity(cached: seq<CachedImage>, url: string, data: string, tetoMode: bool)
    requires !Contains(cached, url) && |cached| >= Capacity(tetoMode)
    ensures |Insert(cached, url, data, tetoMode)| == |cached|
    ensures exists k: nat :: (IsFirstLargest(cached, k) &&
      Insert(cached, url, data, tetoMode) == cached[..k] + cached[k + 1..] + [CachedImage(url, data, |data|)])
  {
    var k := FirstLargest(cached);
    assert IsFirstLargest(cached, k);
  }

  /** The evicted entry is at least as long as every entry that stays. */
  lemma EvictedIsLongest(cached: seq<CachedImage>, url: string, data: string, tetoMode: bool)
    requires !Contains(cached, url) && |cached| >= Capacity(tetoMode)
    ensures var k := FirstLargest(cached);
      forall j :: 0 <= j < |cached| - 1 ==> DataLength(Insert(cached, url, data, tetoMode)[j]) <= DataLength(cached[k])
  {
    var k := FirstLargest(cached);
    var r := Insert(cached, url, data, tetoMode);
    forall j | 0 <= j < |cached| - 1
      ensures DataLength(r[j]) <= DataLength(cached[k])
    {
      if j < k {
        assert r[j] == cached[j];
      } else {
        assert r[j] == cached[j + 1];
      }
    }
  }

  /** The array never grows past the capacity once it is within it. */
  lemma InsertWithinCapacity(cached: seq<CachedImage>, url: string, data: string, tetoMode: bool)
    requires |cached| <= Capacity(tetoMode)
    ensures |Insert(cached, url, data, tetoMode)| <= Capacity(tetoMode)
  {
  }

  /** After recording a download its URL is in the array. */
  lemma InsertThenContains(cached: seq<CachedImage>, url: string, data: string, tetoMode: bool)
    ensures Contains(Insert(cached, url, data, tetoMode), url)
  {
    var r := Insert(cached, url, data, tetoMode);
    if !Contains(cached, url) {
      assert r[|r| - 1].url == url;
    }
  }

  /** Every URL in the array after an insert was there before or is the new one. */
  lemma {:induction false} InsertUrls(cached: seq<CachedImage>, url: string, data: string, tetoMode: bool, other: string)
    requires Contains(Insert(cached, url, data, tetoMode), other)
    ensures other == url || Contains(cached, other)
  {
    var r := Insert(cached, url, data, tetoMode);
    var i :| 0 <= i < |r| && r[i].url == other;
    if !Contains(cached, url) && i < |r| - 1 {
      if |cached| >= Capacity(tetoMode) {
        var k := FirstLargest(cached);
        if i < k {
          assert r[i] == cached[i];
        } else {
          assert r[i] == cached[i + 1];
        }
      } else {
        assert r[i] == cached[i];
      }
    }
  }

  /** Deduplication keeps the URLs in the array pairwise distinct. */
  lemma InsertKeepsUrlsDistinct(cached: seq<CachedImage>, url: string, data: string, tetoMode: bool)
    requires DistinctUrls(cached)
    ensures DistinctUrls(Insert(cached, url, data, tetoMode))
  {
    if !Contains(cached, url) {
      if |cached| >= Capacity(tetoMode) {
        WithoutKeepsDistinct(cached, FirstLargest(cached), url);
        AppendKeepsDistinct(Without(cached, FirstLargest(cached)), EntryFor(url, data));
      } else {
        AppendKeepsDistinct(cached, EntryFor(url, data));
      }
    }
  }

  /** Removing an entry keeps the rest distinct and brings in no URL. */
  lemma WithoutKeepsDistinct(cached: seq<CachedImage>, k: nat, url: string)
    requires k < |cached| && DistinctUrls(cached) && !Contains(cached, url)
    ensures DistinctUrls(Without(cached, k)) && !Contains(Without(cached, k), url)
  {
    var r := Without(cached, k);
    forall i, j | 0 <= i < j < |r| ensures r[i].url != r[j].url {
      var mi := if i < k then i else i + 1;
      var mj := if j < k then j else j + 1;
      assert r[i] == cached[mi] && r[j] == cached[mj] && mi < mj;
    }
  }

  /** Appending an entry whose URL is new keeps the URLs distinct. */
  lemma AppendKeepsDistinct(kept: seq<CachedImage>, e: CachedImage)
    requires DistinctUrls(kept) && !Contains(kept, e.url)
    ensures DistinctUrls(kept + [e])
  {
    var r := kept + [e];
    forall i, j | 0 <= i < j < |r| ensures r[i].url != r[j].url {
      assert r[i] == kept[i];
    }
  }

  /** Records several downloads one after another. */
  function InsertAll(cached: seq<CachedImage>, downloads: seq<Download>, tetoMode: bool): seq<CachedImage>
    decreases |downloads|
  {
    if downloads == [] then cached
    else InsertAll(Insert(cached, downloads[0].url, downloads[0].data, tetoMode), downloads[1..], tetoMode)
  }

  /** However many downloads are recorded, the array stays within the capacity. */
  lemma {:induction false} InsertAllWithinCapacity(cached: seq<CachedImage>, downloads: seq<Download>, tetoMode: bool)
    requires |cached| <= Capacity(tetoMode)
    ensures |InsertAll(cached, downloads, tetoMode)| <= Capacity(tetoMode)
    decreases |downloads|
  {
    if downloads != [] {
      InsertWithinCapacity(cached, downloads[0].url, downloads[0].data, tetoMode);
      InsertAllWithinCapacity(Insert(cached, downloads[0].url, downloads[0].data, tetoMode), downloads[1..], tetoMode);
    }
  }

  /** None of the downloads' URLs is in the array, and no two downloads share one. */
  ghost predicate FreshDownloads(cached: seq<CachedImage>, downloads: seq<Download>) {
    && (forall i :: 0 <= i < |downloads| ==> !Contains(cached, downloads[i].url))
    && (forall i, j :: 0 <= i < j < |downloads| ==> downloads[i].url != downloads[j].url)
  }

  /**
   * Recording n downloads of new, distinct URLs fills the array up to the
   * capacity and then holds it there: 21 such downloads into an empty
   * default-mode array leave 20 entries.
   */
  lemma {:induction false} InsertAllFreshLength(cached: seq<CachedImage>, downloads: seq<Download>, tetoMode: bool)
    requires |cached| <= Capacity(tetoMode)
    requires FreshDownloads(cached, downloads)
    ensures |InsertAll(cached, downloads, tetoMode)| ==
      if |cached| + |downloads| <= Capacity(tetoMode) then |cached| + |downloads| else Capacity(tetoMode)
    decreases |downloads|
  {
    if downloads != [] {
      var d := downloads[0];
      var next := Insert(cached, d.url, d.data, tetoMode);
      assert !Contains(cached, d.url);
      forall i | 0 <= i < |downloads[1..]|
        ensures !Contains(next, downloads[1..][i].url)
      {
        var u := downloads[1..][i].url;
        assert u == downloads[i + 1].url && u != d.url;
        if Contains(next, u) {
          InsertUrls(cached, d.url, d.data, tetoMode, u);
        }
      }
      InsertAllFreshLength(next, downloads[1..], tetoMode);
    }
  }
}
