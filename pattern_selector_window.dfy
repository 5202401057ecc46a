/**
  `PatternSelectorWindow`: the hatch-pattern browser. It loads one `PatternItem` per `.pat`
  file, shows the items whose name contains the search text ignoring case, favourites first
  and then by name, and reports the name of the item the user clicks.

  The directory scan is replaced by its results: the list of `.pat` file paths and the set of
  paths that exist in the thumbnail folder. Paths use Windows separators.
*/
module PatternSelector {
  import opened Wrappers
  import opened TextFold
  import opened Sorting

  /** `PatternItem`: a pattern's name, its thumbnail path (`null` as `None`) and its favourite flag. */
  datatype PatternItem = PatternItem(name: string, thumbnailPath: Option<string>, isFavorite: bool)

  // ---------------------------------------------------------------- file paths

  /** The characters `Path` treats as ending a directory or volume part. */
  const Separators: set<char> := {'\\', '/', ':'}

  /** `LastIndexOfAny`: the last position of a character from `cs`, or -1. */
  function LastIndexIn(s: string, cs: set<char>): (i: int)
    ensures -1 <= i < |s|
    ensures 0 <= i ==> s[i] in cs
    ensures forall j :: i < j < |s| ==> s[j] !in cs
  {
    if s == [] then -1
    else if s[|s| - 1] in cs then |s| - 1
    else LastIndexIn(s[..|s| - 1], cs)
  }

  /** The conditions of `LastIndexIn`'s contract pin its result down. */
  lemma LastIndexInUnique(s: string, cs: set<char>, k: int)
    requires -1 <= k < |s| && (0 <= k ==> s[k] in cs)
    requires forall j :: k < j < |s| ==> s[j] !in cs
    ensures LastIndexIn(s, cs) == k
  {
  }

  /** `Path.GetFileName`: what follows the last separator. */
  function FileName(path: string): (r: string)
    ensures forall c :: c in r ==> c !in Separators
  {
    if path == [] || path[|path| - 1] in Separators then []
    else FileName(path[..|path| - 1]) + [path[|path| - 1]]
  }

  /** Characters that are not separators all belong to the file name. */
  lemma {:induction false} FileNameAppend(a: string, b: string)
    requires forall c :: c in b ==> c !in Separators
    ensures FileName(a + b) == FileName(a) + b
  {
    if b != [] {
      var n := |b| - 1;
      assert (a + b)[..|a + b| - 1] == a + b[..n];
      assert b[n] in b;
      FileNameAppend(a, b[..n]);
      assert b == b[..n] + [b[n]];
    } else {
      assert a + b == a;
    }
  }

  /** `Path.GetFileNameWithoutExtension`: the file name up to its last `.`, or all of it. */
  function FileNameWithoutExtension(path: string): string {
    DropExtension(FileName(path))
  }

  /** A file name up to its last `.`, or all of it when it has none. */
  function DropExtension(file: string): string {
    var dot := LastIndexIn(file, {'.'});
    if dot == -1 then file else file[..dot]
  }

  /** Dropping the extension of `<name>.pat` gives back `name`, whatever dots `name` holds. */
  lemma DropPatExtension(name: string)
    ensures DropExtension(name + ".pat") == name
  {
    var file := name + ".pat";
    assert file[|name|] == '.' && file[|name| + 1] == 'p' && file[|name| + 2] == 'a' && file[|name| + 3] == 't';
    LastIndexInUnique(file, {'.'}, |name|);
    assert file[..|name|] == name;
  }

  /** `Path.IsPathRooted`: a leading separator or a drive letter. */
  predicate IsRooted(path: string) {
    (|path| >= 1 && (path[0] == '\\' || path[0] == '/')) || (|path| >= 2 && path[1] == ':')
  }

  /** `Path.Combine(a, b)` for two paths: an empty second path gives the first unchanged. */
  function Combine(a: string, b: string): (r: string)
    ensures b == [] ==> r == a
    ensures b != [] && IsRooted(b) ==> r == b
    ensures b != [] && !IsRooted(b) && a != [] && a[|a| - 1] !in Separators ==> r == a + "\\" + b
  {
    if b == [] then a
    else if a == [] || IsRooted(b) then b
    else if a[|a| - 1] in Separators then a + b
    else a + "\\" + b
  }

  /** Naming a file `<dir>\<name>.pat` and asking for its name without extension gives back `name`. */
  lemma {:induction false} FileNameWithoutExtensionOfPatFile(dir: string, name: string)
    requires forall c :: c in name ==> c !in Separators
    ensures FileNameWithoutExtension(dir + "\\" + name + ".pat") == name
  {
    var path := dir + "\\" + name + ".pat";
    assert path == (dir + "\\") + (name + ".pat");
    FileNameAppend(dir + "\\", name + ".pat");
    assert FileName(dir + "\\") == [];
    assert FileName(path) == name + ".pat";
    DropPatExtension(name);
  }

  // ---------------------------------------------------------------- loading

  /** The favourites set `LoadPatterns` reads: always empty, since nothing stores favourites yet. */
  const Favorites: set<string> := {}

  /** The item `LoadPatterns` makes for one `.pat` file, given the paths that exist. */
  function LoadedItem(file: string, thumbsPath: string, existing: set<string>): PatternItem {
    var name := FileNameWithoutExtension(file);
    var thumb := Combine(thumbsPath, name + ".png");
    PatternItem(name, if thumb in existing then Some(thumb) else None, name in Favorites)
  }

  /** The items `LoadPatterns` appends, one per file, in the order the files are listed. */
  function LoadedItems(files: seq<string>, thumbsPath: string, existing: set<string>): (r: seq<PatternItem>)
    ensures |r| == |files|
    ensures forall i :: 0 <= i < |files| ==> r[i] == LoadedItem(files[i], thumbsPath, existing)
  {
    if files == [] then []
    else LoadedItems(files[..|files| - 1], thumbsPath, existing) + [LoadedItem(files[|files| - 1], thumbsPath, existing)]
  }

  /**
    The item for `<dir>\<name>.pat` is named `name`, has the thumbnail `<thumbs>\<name>.png`
    exactly when that file exists, and is not a favourite.
  */
  lemma LoadedPatFile(dir: string, name: string, thumbsPath: string, existing: set<string>)
    requires forall c :: c in name ==> c !in Separators
    requires thumbsPath != [] && thumbsPath[|thumbsPath| - 1] !in Separators
    ensures var item := LoadedItem(dir + "\\" + name + ".pat", thumbsPath, existing);
      var thumb := thumbsPath + "\\" + name + ".png";
      && item.name == name
      && (thumb in existing ==> item.thumbnailPath == Some(thumb))
      && (thumb !in existing ==> item.thumbnailPath == None)
      && !item.isFavorite
  {
    FileNameWithoutExtensionOfPatFile(dir, name);
    assert !IsRooted(name + ".png") by {
      if |name| >= 2 {
        assert name[1] in name;
      }
      if |name| == 1 {
        assert (name + ".png")[1] == '.';
      }
      if |name| >= 1 {
        assert name[0] in name;
      }
    }
    assert thumbsPath + "\\" + (name + ".png") == thumbsPath + "\\" + name + ".png";
  }

  // ---------------------------------------------------------------- the search filter

  /** `p.Name.ToLower().Contains(text.ToLower())`. */
  predicate Matches(p: PatternItem, text: string) {
    Contains(Fold(p.name), Fold(text))
  }

  /** `Where(p => Matches(p, text))`, keeping list order. */
  function Matching(all: seq<PatternItem>, text: string): (r: seq<PatternItem>)
    ensures forall x :: x in r <==> x in all && Matches(x, text)
  {
    if all == [] then []
    else
      var n := |all| - 1;
      var prev := Matching(all[..n], text);
      assert all == all[..n] + [all[n]];
      if Matches(all[n], text) then prev + [all[n]] else prev
  }

  /** The search step of `RefreshDisplay`: no filtering when the search text is empty. */
  function Filtered(all: seq<PatternItem>, text: string): seq<PatternItem> {
    if text == "" then all else Matching(all, text)
  }

  /** The empty search text matches every name, so the guard on an empty search only saves work. */
  lemma {:induction false} MatchingEmptyText(all: seq<PatternItem>)
    ensures Matching(all, "") == all
  {
    if all != [] {
      var n := |all| - 1;
      MatchingEmptyText(all[..n]);
      ContainsEmpty(Fold(all[n].name));
      assert all == all[..n] + [all[n]];
    }
  }

  /** Every pattern passes the filter of an empty search, and a pattern passes any search that matches its name. */
  lemma {:induction false} FilteredMembers(all: seq<PatternItem>, text: string, x: PatternItem)
    ensures x in Filtered(all, text) <==> x in all && (text == "" || Matches(x, text))
  {
  }

  // ---------------------------------------------------------------- the display order

  /** `OrderByDescending(p => p.IsFavorite).ThenBy(p => p.Name)`: may `a` be shown before `b`? */
  predicate DisplayOrder(a: PatternItem, b: PatternItem) {
    (a.isFavorite && !b.isFavorite) || (a.isFavorite == b.isFavorite && NameLe(a.name, b.name))
  }

  lemma DisplayOrderIsTotalPreorder()
    ensures IsTotalPreorder(DisplayOrder)
  {
    forall a: PatternItem, b: PatternItem
      ensures DisplayOrder(a, b) || DisplayOrder(b, a)
    {
      NameLeTotal(a.name, b.name);
    }
    forall a: PatternItem, b: PatternItem, c: PatternItem | DisplayOrder(a, b) && DisplayOrder(b, c)
      ensures DisplayOrder(a, c)
    {
      if a.isFavorite == b.isFavorite == c.isFavorite {
        NameLeTransitive(a.name, b.name, c.name);
      }
    }
  }

  /**
    The list `RefreshDisplay` shows: the filtered patterns rearranged so that favourites come
    first and names ascend within each group, patterns the order cannot tell apart keeping
    their list order.
  */
  function Displayed(all: seq<PatternItem>, text: string): (r: seq<PatternItem>)
    ensures multiset(r) == multiset(Filtered(all, text))
    ensures forall i, j :: 0 <= i < j < |r| && r[j].isFavorite ==> r[i].isFavorite
    ensures forall i, j :: 0 <= i < j < |r| && r[i].isFavorite == r[j].isFavorite ==> NameLe(r[i].name, r[j].name)
    ensures forall p :: TiesWith(r, p, DisplayOrder) == TiesWith(Filtered(all, text), p, DisplayOrder)
  {
    var filtered := Filtered(all, text);
    DisplayOrderIsTotalPreorder();
    InsertionSortSorted(filtered, DisplayOrder);
    forall p {
      InsertionSortStable(filtered, p, DisplayOrder);
    }
    InsertionSort(filtered, DisplayOrder)
  }

  /** A pattern is shown exactly when it is loaded and the search text is empty or occurs in its name, ignoring case. */
  lemma DisplayedMembers(all: seq<PatternItem>, text: string, x: PatternItem)
    ensures x in Displayed(all, text) <==> x in all && (text == "" || Matches(x, text))
  {
    var r := Displayed(all, text);
    assert x in r <==> x in multiset(r);
    FilteredMembers(all, text, x);
  }

  /** With an empty search every loaded pattern is shown, as often as it was loaded. */
  lemma EmptySearchShowsAll(all: seq<PatternItem>)
    ensures multiset(Displayed(all, "")) == multiset(all)
  {
  }

  /** The loop of `LoadPatterns`: one item per file is appended to `_allPatterns`, which starts empty. */
  method LoadPatterns(files: seq<string>, thumbsPath: string, existing: set<string>) returns (patterns: seq<PatternItem>)
    ensures patterns == LoadedItems(files, thumbsPath, existing)
  {
    patterns := [];
    for i := 0 to |files|
      invariant patterns == LoadedItems(files[..i], thumbsPath, existing)
    {
      assert files[..i + 1][..i] == files[..i];
      patterns := patterns + [LoadedItem(files[i], thumbsPath, existing)];
    }
    assert files[..|files|] == files;
  }

  // ---------------------------------------------------------------- the window

  class PatternSelectorWindow {
    var allPatterns: seq<PatternItem>
    var searchText: string
    /** `PatternList.ItemsSource`. */
    var itemsSource: seq<PatternItem>
    var selectedPatternName: Option<string>
    var dialogResult: Option<bool>
    var closed: bool

    /**
      The window loads the patterns on construction (`LoadPatterns`), with an empty search box,
      and shows them through `RefreshDisplay`.
    */
    constructor (files: seq<string>, thumbsPath: string, existing: set<string>)
      ensures allPatterns == LoadedItems(files, thumbsPath, existing)
      ensures searchText == "" && itemsSource == Displayed(allPatterns, "")
      ensures selectedPatternName == None && dialogResult == None && !closed
    {
      var patterns := LoadPatterns(files, thumbsPath, existing);
      allPatterns := patterns;
      searchText := "";
      itemsSource := Displayed(patterns, "");
      selectedPatternName := None;
      dialogResult := None;
      closed := false;
    }

    /** `RefreshDisplay`: the list shows the filtered, ordered patterns. */
    method RefreshDisplay()
      modifies this
      ensures itemsSource == Displayed(allPatterns, searchText)
      ensures allPatterns == old(allPatterns) && searchText == old(searchText)
      ensures selectedPatternName == old(selectedPatternName)
      ensures dialogResult == old(dialogResult) && closed == old(closed)
    {
      itemsSource := Displayed(allPatterns, searchText);
    }

    /** `SearchBox_TextChanged`: the new search text takes effect at once. */
    method SearchTextChanged(text: string)
      modifies this
      ensures searchText == text && itemsSource == Displayed(allPatterns, text)
      ensures allPatterns == old(allPatterns) && selectedPatternName == old(selectedPatternName)
      ensures dialogResult == old(dialogResult) && closed == old(closed)
    {
      searchText := text;
      RefreshDisplay();
    }

    /**
      `Item_Click`: clicking an element whose data context is a pattern selects that pattern's
      name, sets the dialog result to true and closes the window; any other element does nothing.
    */
    method ItemClick(dataContext: Option<PatternItem>)
      modifies this
      ensures dataContext.Some? ==>
        && selectedPatternName == Some(dataContext.value.name)
        && dialogResult == Some(true) && closed
      ensures dataContext.None? ==>
        && selectedPatternName == old(selectedPatternName)
        && dialogResult == old(dialogResult) && closed == old(closed)
      ensures allPatterns == old(allPatterns) && searchText == old(searchText) && itemsSource == old(itemsSource)
    {
      if dataContext.Some? {
        selectedPatternName := Some(dataContext.value.name);
        dialogResult := Some(true);
        closed := true;
      }
    }
  }
}
