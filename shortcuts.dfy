/**
 * The shortcut tiles of the new-tab page (script.js and firefox/script.js):
 * the default list, the add form's validation, delete by index and the
 * 14-slot grid with "Add" tiles after the shortcuts.
 */
module Shortcuts {
  import opened Values
  import opened Text

  datatype Shortcut = Shortcut(title: string, url: string)

  /** `DEFAULT_SHORTCUTS`, seeded when the stored list is empty. */
  const DefaultShortcuts: seq<Shortcut> := [
    Shortcut("YouTube", "https://youtube.com"),
    Shortcut("ChatGPT", "https://chat.openai.com"),
    Shortcut("Claude", "https://claude.ai"),
    Shortcut("MalikHw47", "https://youtube.com/@MalikHw47"),
    Shortcut("TikTok", "https://tiktok.com"),
    Shortcut("Twitter", "https://twitter.com"),
    Shortcut("Reddit", "https://reddit.com"),
    Shortcut("GitHub", "https://github.com")]

  /**
   * The parts of a WHATWG `URL` the pages read. Parsing itself belongs to
   * the browser; it reaches this model as a function from text to a parse,
   * None where `new URL` throws.
   */
  datatype ParsedUrl = ParsedUrl(protocol: string, hostname: string)

  /** `isValidUrl`: the text parses and its scheme is `http:` or `https:`. */
  predicate IsValidUrl(parsed: Option<ParsedUrl>) {
    parsed.Some? && (parsed.value.protocol == "http:" || parsed.value.protocol == "https:")
  }

  /**
   * The add button's handler: the trimmed `{title, url}` is appended exactly
   * when neither field is blank and the trimmed URL is an http(s) URL;
   * otherwise the list stays as it was (the page shows an alert).
   */
  function AddShortcut(shortcuts: seq<Shortcut>, titleInput: string, urlInput: string,
                       parseUrl: string -> Option<ParsedUrl>): (r: seq<Shortcut>)
    ensures r == shortcuts || r == shortcuts + [Shortcut(Trim(titleInput), Trim(urlInput))]
    ensures r != shortcuts <==>
      && (exists i :: 0 <= i < |titleInput| && !IsWhitespace(titleInput[i]))
      && (exists i :: 0 <= i < |urlInput| && !IsWhitespace(urlInput[i]))
      && IsValidUrl(parseUrl(Trim(urlInput)))
  {
    var title := Trim(titleInput);
    var url := Trim(urlInput);
    if title != "" && url != "" && IsValidUrl(parseUrl(url)) then shortcuts + [Shortcut(title, url)] else shortcuts
  }

  /**
   * An accepted shortcut has no white space at either end of its fields, a
   * title and a URL that are not empty, and a web URL; the ones before it
   * stay as they were.
   */
  lemma AddedShortcutIsClean(shortcuts: seq<Shortcut>, titleInput: string, urlInput: string,
                             parseUrl: string -> Option<ParsedUrl>)
    requires |AddShortcut(shortcuts, titleInput, urlInput, parseUrl)| > |shortcuts|
    ensures var r := AddShortcut(shortcuts, titleInput, urlInput, parseUrl);
      var s := r[|r| - 1];
      && |r| == |shortcuts| + 1 && r[..|shortcuts|] == shortcuts
      && s.title != "" && !IsWhitespace(s.title[0]) && !IsWhitespace(s.title[|s.title| - 1])
      && s.url != "" && !IsWhitespace(s.url[0]) && !IsWhitespace(s.url[|s.url| - 1])
      && IsValidUrl(parseUrl(s.url))
  {
    var r := AddShortcut(shortcuts, titleInput, urlInput, parseUrl);
    assert r == shortcuts + [Shortcut(Trim(titleInput), Trim(urlInput))];
    assert r[..|shortcuts|] == shortcuts;
  }

  /** A title of nothing but white space is refused whatever the URL. */
  lemma BlankTitleRefused(shortcuts: seq<Shortcut>, titleInput: string, urlInput: string,
                          parseUrl: string -> Option<ParsedUrl>)
    requires forall i :: 0 <= i < |titleInput| ==> IsWhitespace(titleInput[i])
    ensures AddShortcut(shortcuts, titleInput, urlInput, parseUrl) == shortcuts
  {
  }

  /**
   * `shortcuts.splice(index, 1)`: the entry at `index` goes and the rest keep
   * their order; an index past the end removes nothing.
   */
  function RemoveAt(shortcuts: seq<Shortcut>, index: nat): (r: seq<Shortcut>)
    ensures index < |shortcuts| ==> |r| == |shortcuts| - 1
    ensures index >= |shortcuts| ==> r == shortcuts
    ensures forall j :: 0 <= j < index && j < |r| ==> r[j] == shortcuts[j]
    ensures forall j :: index <= j < |r| ==> r[j] == shortcuts[j + 1]
  {
    if index < |shortcuts| then shortcuts[..index] + shortcuts[index + 1..] else shortcuts
  }

  /** Deleting what was just added gives the old list back. */
  lemma RemoveAddedShortcut(shortcuts: seq<Shortcut>, s: Shortcut)
    ensures RemoveAt(shortcuts + [s], |shortcuts|) == shortcuts
  {
    assert (shortcuts + [s])[..|shortcuts|] == shortcuts;
  }

  /** Deleting one shortcut removes one occurrence of it and nothing else. */
  lemma RemoveAtMultiset(shortcuts: seq<Shortcut>, index: nat)
    requires index < |shortcuts|
    ensures multiset(RemoveAt(shortcuts, index)) + multiset{shortcuts[index]} == multiset(shortcuts)
  {
    assert shortcuts == shortcuts[..index] + [shortcuts[index]] + shortcuts[index + 1..];
  }

  /** The DOMContentLoaded seeding: an empty list becomes the defaults, any other stays. */
  function Seeded(shortcuts: seq<Shortcut>): (r: seq<Shortcut>)
    ensures r != []
    ensures shortcuts != [] ==> r == shortcuts
    ensures shortcuts == [] ==> r == DefaultShortcuts
  {
    if |shortcuts| == 0 then DefaultShortcuts else shortcuts
  }

  /** Seeding twice is seeding once. */
  lemma SeededIdempotent(shortcuts: seq<Shortcut>)
    ensures Seeded(Seeded(shortcuts)) == Seeded(shortcuts)
  {
  }

  const MaxSlots: nat := 14

  /** One tile of the grid. */
  datatype Card = ShortcutCard(shortcut: Shortcut, index: nat) | AddCard

  /** How many "Add" tiles the grid shows after `n` shortcuts. */
  function AddSlots(n: nat): nat {
    if n < MaxSlots then MaxSlots - n else 0
  }

  function CountAddCards(grid: seq<Card>): (c: nat)
    ensures c <= |grid|
  {
    if grid == [] then 0 else CountAddCards(grid[..|grid| - 1]) + (if grid[|grid| - 1] == AddCard then 1 else 0)
  }

  /**
   * `renderShortcuts`: one tile per shortcut, in order and carrying its index
   * for the delete button, then "Add" tiles up to 14 slots. Firefox builds
   * the shortcut tiles with `Promise.all`, which keeps the order.
   */
  method RenderShortcuts(shortcuts: seq<Shortcut>) returns (grid: seq<Card>)
    ensures |grid| == |shortcuts| + AddSlots(|shortcuts|)
    ensures forall i :: 0 <= i < |shortcuts| ==> grid[i] == ShortcutCard(shortcuts[i], i)
    ensures forall i :: |shortcuts| <= i < |grid| ==> grid[i] == AddCard
    ensures CountAddCards(grid) == AddSlots(|shortcuts|)
  {
    grid := [];
    var i := 0;
    while i < |shortcuts|
      invariant 0 <= i <= |shortcuts|
      invariant |grid| == i
      invariant forall j :: 0 <= j < i ==> grid[j] == ShortcutCard(shortcuts[j], j)
      invariant CountAddCards(grid) == 0
    {
      grid := grid + [ShortcutCard(shortcuts[i], i)];
      i := i + 1;
    }
    i := |shortcuts|;
    while i < MaxSlots
      invariant |shortcuts| <= i <= |shortcuts| + AddSlots(|shortcuts|)
      invariant |grid| == i
      invariant forall j :: 0 <= j < |shortcuts| ==> grid[j] == ShortcutCard(shortcuts[j], j)
      invariant forall j :: |shortcuts| <= j < |grid| ==> grid[j] == AddCard
      invariant CountAddCards(grid) == |grid| - |shortcuts|
    {
      grid := grid + [AddCard];
      i := i + 1;
    }
  }
}
