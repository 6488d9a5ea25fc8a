/**
 * The three listings of the back end: `listDirectory` (the file browser),
 * `getSymlinks` (the links in the web root) and `getHtdocsFolders` (the
 * project cards). Each walks a `scandir` result in a loop, skips `.` and
 * `..`, builds one record per entry and, for the first and last, sorts the
 * records with a `usort` comparator.
 */
module Listing {
  import opened Text
  import opened Disk
  import opened Probe
  import opened Ordering

  predicate IsDotEntry(f: string) { f == "." || f == ".." }

  // ---------------------------------------------------------------------------
  // listDirectory (index.php:126-194)
  // ---------------------------------------------------------------------------

  /** Everything after the last `.`; all of `f` when it has no `.`. */
  function AfterLastDot(f: string): (e: string)
    ensures |e| <= |f| && e == f[|f| - |e|..]
    ensures '.' !in e
    ensures |e| < |f| ==> f[|f| - |e| - 1] == '.'
  {
    if f == [] then []
    else if f[|f| - 1] == '.' then []
    else AfterLastDot(f[..|f| - 1]) + [f[|f| - 1]]
  }

  /** `pathinfo(f, PATHINFO_EXTENSION)` for a bare file name: after the last dot, or "" without one. */
  function Extension(f: string): (e: string)
    ensures '.' !in e
    ensures '.' !in f ==> e == []
    ensures '.' in f ==> |e| < |f| && f[|f| - |e| - 1] == '.' && f[|f| - |e|..] == e
  {
    if '.' in f then AfterLastDot(f) else []
  }

  predicate IsPhp(f: string) { Lower(Extension(f)) == "php" }

  /** One row of the file browser; size and modification time are not modelled. */
  datatype DirItem = DirItem(name: string, path: string, isDir: bool, isPhp: bool, hasIndex: Option<bool>)

  function ItemKey(it: DirItem): SortKey { SortKey(it.isDir, it.name) }

  /** The record the loop builds for entry `f` of directory `dir`. */
  function MakeItem(d: Tree, dir: string, f: string): (it: DirItem)
    ensures it.name == f && it.path == dir + [Sep] + f
    ensures it.isDir ==> FileExists(d, it.path) && !IsFile(d, it.path)
    ensures it.hasIndex.Some? <==> it.isDir
    ensures it.hasIndex == Some(true) ==> FileExists(d, it.path + [Sep] + "index.php")
    ensures it.isPhp ==> '.' in f
  {
    var full := dir + [Sep] + f;
    var isDir := IsDir(d, full);
    ProbesAgree(d, full);
    DirItem(f, full, isDir, IsPhp(f), if isDir then Some(FileExists(d, full + [Sep] + "index.php")) else None)
  }

  /** The unsorted records for the entries `fs`, in `scandir` order. */
  function ItemsOf(d: Tree, dir: string, fs: seq<string>): seq<DirItem>
  {
    if fs == [] then []
    else
      var last := fs[|fs| - 1];
      ItemsOf(d, dir, fs[..|fs| - 1]) + (if IsDotEntry(last) then [] else [MakeItem(d, dir, last)])
  }

  /** The records are exactly those of the entries other than `.` and `..`. */
  lemma {:induction false} ItemsOfMembers(d: Tree, dir: string, fs: seq<string>)
    ensures forall x :: x in ItemsOf(d, dir, fs) ==> x.name in fs && !IsDotEntry(x.name) && x == MakeItem(d, dir, x.name)
    ensures forall f :: f in fs && !IsDotEntry(f) ==> MakeItem(d, dir, f) in ItemsOf(d, dir, fs)
  {
    if fs != [] {
      var init := fs[..|fs| - 1];
      ItemsOfMembers(d, dir, init);
      assert fs == init + [fs[|fs| - 1]];
    }
  }

  /** One more entry adds its record, unless it is `.` or `..`. */
  lemma ItemsOfStep(d: Tree, dir: string, fs: seq<string>, i: nat)
    requires i < |fs|
    ensures ItemsOf(d, dir, fs[..i + 1]) ==
            ItemsOf(d, dir, fs[..i]) + (if IsDotEntry(fs[i]) then [] else [MakeItem(d, dir, fs[i])])
  {
    assert fs[..i + 1][..i] == fs[..i];
  }

  datatype ListError = Missing | NotADirectory | NotReadable | Unreadable
  {
    /** The error text, which the path follows. */
    function Prefix(): string
    {
      match this
      case Missing => "Directory not found: "
      case NotADirectory => "This is not a directory: "
      case NotReadable => "Directory is not readable (permission issue): "
      case Unreadable => "Could not read directory contents: "
    }
  }

  datatype Listing =
    | Listed(items: seq<DirItem>, currentPath: string, itemCount: nat)
    | Failed(error: ListError, path: string)
  {
    function ErrorText(): string
      requires Failed?
    {
      error.Prefix() + path
    }
  }

  /** The loop of index.php:154-176: one record per entry other than `.` and `..`, in `scandir` order. */
  method CollectItems(d: Tree, p: string, files: seq<string>) returns (items: seq<DirItem>)
    ensures items == ItemsOf(d, p, files)
  {
    items := [];
    var i := 0;
    while i < |files|
      invariant 0 <= i <= |files|
      invariant items == ItemsOf(d, p, files[..i])
    {
      var file := files[i];
      ItemsOfStep(d, p, files, i);
      if !IsDotEntry(file) {
        items := items + [MakeItem(d, p, file)];
      }
      i := i + 1;
    }
    assert files[..|files|] == files;
  }

  /** Sorting the records puts directories first, orders each group by `strcasecmp` and keeps every record. */
  lemma SortedItems(d: Tree, p: string, files: seq<string>)
    ensures var s := Sort(ItemsOf(d, p, files), ItemKey);
            && multiset(s) == multiset(ItemsOf(d, p, files))
            && (forall i, j :: 0 <= i < j < |s| ==> !(!s[i].isDir && s[j].isDir))
            && (forall i, j :: 0 <= i < j < |s| && s[i].isDir == s[j].isDir ==> CaseCmp(s[i].name, s[j].name) <= 0)
            && (forall x :: x in s ==> !IsDotEntry(x.name) && x.name in files && x == MakeItem(d, p, x.name))
            && (forall f :: f in files && !IsDotEntry(f) ==> MakeItem(d, p, f) in s)
  {
    var items := ItemsOf(d, p, files);
    ItemsOfMembers(d, p, files);
    SortGroups(items, ItemKey);
  }

  /**
   * `listDirectory(path)`. The path is normalised to `\` separators without a
   * trailing one, which is the disk's own key spelling.
   */
  method ListDirectory(host: Host, d: Tree, path: string) returns (r: Listing)
    ensures var p := Key(path);
            && (!FileExists(d, p) ==> r == Failed(Missing, p))
            && (FileExists(d, p) && !IsDir(d, p) ==> r == Failed(NotADirectory, p))
            && (IsDir(d, p) && !host.readable(p) ==> r == Failed(NotReadable, p))
            && (IsDir(d, p) && host.readable(p) && host.scandir(p).None? ==> r == Failed(Unreadable, p))
            && (IsDir(d, p) && host.readable(p) && host.scandir(p).Some? ==> r.Listed? && r.currentPath == p)
    ensures r.Listed? ==> r.itemCount == |r.items|
    // directories first, each group in strcasecmp order
    ensures r.Listed? ==> forall i, j :: 0 <= i < j < |r.items| ==> !(!r.items[i].isDir && r.items[j].isDir)
    ensures r.Listed? ==> forall i, j :: 0 <= i < j < |r.items| && r.items[i].isDir == r.items[j].isDir ==>
                            CaseCmp(r.items[i].name, r.items[j].name) <= 0
    // one record per entry other than . and .., each as often as scandir names it
    ensures r.Listed? ==> multiset(r.items) == multiset(ItemsOf(d, Key(path), host.scandir(Key(path)).value))
    ensures r.Listed? ==> forall x :: x in r.items ==>
              !IsDotEntry(x.name) && x.name in host.scandir(Key(path)).value && x == MakeItem(d, Key(path), x.name)
    ensures r.Listed? ==> forall f :: f in host.scandir(Key(path)).value && !IsDotEntry(f) ==>
              MakeItem(d, Key(path), f) in r.items
  {
    var p := TrimRight(Replace(path, '/', Sep), Sep);
    if !FileExists(d, p) {
      return Failed(Missing, p);
    }
    if !IsDir(d, p) {
      return Failed(NotADirectory, p);
    }
    if !host.readable(p) {
      return Failed(NotReadable, p);
    }
    var listing := host.scandir(p);
    if listing.None? {
      return Failed(Unreadable, p);
    }
    var items := CollectItems(d, p, listing.value);
    SortedItems(d, p, listing.value);
    var sorted := Sort(items, ItemKey);
    r := Listed(sorted, p, |sorted|);
  }

  // ---------------------------------------------------------------------------
  // getSymlinks (index.php:331-367)
  // ---------------------------------------------------------------------------

  const LocalhostUrl: string := "http://localhost/"

  datatype SymlinkInfo = SymlinkInfo(name: string, target: string, url: string)

  /** `htdocs\<f>`, which the web server serves as `http://localhost/<f>`. */
  function EntryPath(f: string): string { HtdocsPath + [Sep] + f }

  /** What `getSymlinks` takes for a link: `is_link`, or a directory that `is_junction` accepts. */
  predicate LooksLinked(host: Host, d: Tree, full: string)
  {
    IsLink(d, full) || (IsDir(d, full) && IsJunction(host, d, full))
  }

  function SymlinkOf(host: Host, f: string): (x: SymlinkInfo)
    ensures x.name == f && x.url == LocalhostUrl + f
    ensures !PhpFalsy(x.target)
    ensures x.target == "N/A" || host.readlink(EntryPath(f)) == Some(x.target) ||
            FsutilTarget(host.fsutil(EntryPath(f))) == Some(x.target)
  {
    SymlinkInfo(f, SymlinkTarget(host, EntryPath(f)), LocalhostUrl + f)
  }

  function SymlinksOf(host: Host, d: Tree, fs: seq<string>): seq<SymlinkInfo>
  {
    if fs == [] then []
    else
      var last := fs[|fs| - 1];
      SymlinksOf(host, d, fs[..|fs| - 1]) +
        (if !IsDotEntry(last) && LooksLinked(host, d, EntryPath(last)) then [SymlinkOf(host, last)] else [])
  }

  lemma SymlinksOfStep(host: Host, d: Tree, fs: seq<string>, i: nat)
    requires i < |fs|
    ensures SymlinksOf(host, d, fs[..i + 1]) ==
            SymlinksOf(host, d, fs[..i]) +
              (if !IsDotEntry(fs[i]) && LooksLinked(host, d, EntryPath(fs[i])) then [SymlinkOf(host, fs[i])] else [])
  {
    assert fs[..i + 1][..i] == fs[..i];
  }

  /** The links reported are exactly the linked entries, in `scandir` order, each with a truthy target. */
  lemma {:induction false} SymlinksOfMembers(host: Host, d: Tree, fs: seq<string>)
    ensures forall x :: x in SymlinksOf(host, d, fs) ==>
              x.name in fs && !IsDotEntry(x.name) && LooksLinked(host, d, EntryPath(x.name)) &&
              x == SymlinkOf(host, x.name) && !PhpFalsy(x.target)
    ensures forall f :: f in fs && !IsDotEntry(f) && LooksLinked(host, d, EntryPath(f)) ==>
              SymlinkOf(host, f) in SymlinksOf(host, d, fs)
  {
    if fs != [] {
      var init := fs[..|fs| - 1];
      SymlinksOfMembers(host, d, init);
      assert fs == init + [fs[|fs| - 1]];
    }
  }

  /** The entries `scandir(htdocs)` gives; `foreach` over `false` runs no iteration. */
  function WebRootEntries(host: Host): seq<string>
  {
    match host.scandir(HtdocsPath)
    case Some(fs) => fs
    case None => []
  }

  /** `getSymlinks()`. */
  method GetSymlinks(host: Host, d: Tree) returns (links: seq<SymlinkInfo>)
    ensures links == SymlinksOf(host, d, WebRootEntries(host))
    ensures forall x :: x in links ==>
              x.name in WebRootEntries(host) && !IsDotEntry(x.name) && LooksLinked(host, d, EntryPath(x.name)) &&
              x.url == LocalhostUrl + x.name && x.target == SymlinkTarget(host, EntryPath(x.name)) &&
              !PhpFalsy(x.target)
    ensures forall f :: f in WebRootEntries(host) && !IsDotEntry(f) && LooksLinked(host, d, EntryPath(f)) ==>
              SymlinkOf(host, f) in links
  {
    var files := WebRootEntries(host);
    links := [];
    var i := 0;
    while i < |files|
      invariant 0 <= i <= |files|
      invariant links == SymlinksOf(host, d, files[..i])
    {
      var file := files[i];
      SymlinksOfStep(host, d, files, i);
      if !IsDotEntry(file) && LooksLinked(host, d, EntryPath(file)) {
        links := links + [SymlinkOf(host, file)];
      }
      i := i + 1;
    }
    assert files[..|files|] == files;
    SymlinksOfMembers(host, d, files);
  }

  // ---------------------------------------------------------------------------
  // getHtdocsFolders (index.php:822-873)
  // ---------------------------------------------------------------------------

  /** One project card; `target` is None where PHP would hold `false`. */
  datatype FolderInfo = FolderInfo(name: string, path: string, url: string, isSymlink: bool,
                                   target: Option<string>, hasIndex: bool, size: string)
  {
    /** The `type` field. */
    function Kind(): string { if isSymlink then "symlink" else "folder" }
  }

  function FolderKey(x: FolderInfo): SortKey { SortKey(x.isSymlink, x.name) }

  /**
   * The card for the directory `f`, or None when counting its entries fails:
   * `count(false)` raises a TypeError in PHP 8 and the request ends there.
   */
  function FolderOf(host: Host, d: Tree, f: string): (r: Option<FolderInfo>)
    ensures r.None? <==> !IsLink(d, EntryPath(f)) && !IsJunction(host, d, EntryPath(f)) &&
                         host.scandir(EntryPath(f)).None?
    ensures r.Some? ==> r.value.name == f && r.value.path == EntryPath(f) && r.value.url == LocalhostUrl + f
    ensures r.Some? ==> (r.value.isSymlink <==> IsLink(d, EntryPath(f)) || IsJunction(host, d, EntryPath(f)))
    ensures r.Some? && r.value.isSymlink ==> r.value.size == "Symlink" && r.value.Kind() == "symlink"
    ensures r.Some? && !r.value.isSymlink ==> r.value.target == Some("") && r.value.Kind() == "folder"
  {
    var full := EntryPath(f);
    var isSymlink := IsLink(d, full) || IsJunction(host, d, full);
    var hasIndex := FileExists(d, full + [Sep] + "index.php") || FileExists(d, full + [Sep] + "index.html");
    if isSymlink then
      Some(FolderInfo(f, full, LocalhostUrl + f, true, FolderTarget(host, full, true), hasIndex, "Symlink"))
    else match host.scandir(full)
      case None => None
      case Some(children) =>
        Some(FolderInfo(f, full, LocalhostUrl + f, false, FolderTarget(host, full, false), hasIndex,
                        IntToString(|children| - 2) + " items"))
  }

  /** The unsorted cards for the entries `fs`; None as soon as one card fails. */
  function FoldersOf(host: Host, d: Tree, fs: seq<string>): Option<seq<FolderInfo>>
  {
    if fs == [] then Some([])
    else
      var last := fs[|fs| - 1];
      match FoldersOf(host, d, fs[..|fs| - 1])
      case None => None
      case Some(xs) =>
        if IsDotEntry(last) || !IsDir(d, EntryPath(last)) then Some(xs)
        else match FolderOf(host, d, last)
          case None => None
          case Some(x) => Some(xs + [x])
  }

  /** Once a card has failed, the whole listing fails. */
  lemma {:induction false} FoldersOfFails(host: Host, d: Tree, fs: seq<string>, i: nat)
    requires i <= |fs| && FoldersOf(host, d, fs[..i]).None?
    ensures FoldersOf(host, d, fs).None?
    decreases |fs| - i
  {
    if i < |fs| {
      assert fs[..i + 1][..i] == fs[..i];
      FoldersOfFails(host, d, fs, i + 1);
    } else {
      assert fs[..i] == fs;
    }
  }

  /** Every card is a directory of the web root, other than `.` and `..`, with the card `FolderOf` gives. */
  lemma {:induction false} FoldersOfMembers(host: Host, d: Tree, fs: seq<string>)
    requires FoldersOf(host, d, fs).Some?
    ensures forall x :: x in FoldersOf(host, d, fs).value ==>
              x.name in fs && !IsDotEntry(x.name) && IsDir(d, EntryPath(x.name)) && FolderOf(host, d, x.name) == Some(x)
    ensures forall f :: f in fs && !IsDotEntry(f) && IsDir(d, EntryPath(f)) ==>
              FolderOf(host, d, f).Some? && FolderOf(host, d, f).value in FoldersOf(host, d, fs).value
  {
    if fs != [] {
      var i := |fs| - 1;
      assert fs[..i + 1] == fs;
      FoldersOfMembers(host, d, fs[..i]);
      FoldersOfStep(host, d, fs, i);
      assert forall f :: f in fs ==> f in fs[..i] || f == fs[i];
      assert forall f :: f in fs[..i] ==> f in fs;
    }
  }

  /** One more entry adds its card when it is a directory other than `.` and `..`, and fails when the card does. */
  lemma FoldersOfStep(host: Host, d: Tree, fs: seq<string>, i: nat)
    requires i < |fs| && FoldersOf(host, d, fs[..i]).Some?
    ensures var xs := FoldersOf(host, d, fs[..i]).value;
            FoldersOf(host, d, fs[..i + 1]) ==
              if IsDotEntry(fs[i]) || !IsDir(d, EntryPath(fs[i])) then Some(xs)
              else if FolderOf(host, d, fs[i]).None? then None
              else Some(xs + [FolderOf(host, d, fs[i]).value])
  {
    assert fs[..i + 1][..i] == fs[..i];
  }

  /** The loop of index.php:827-863; None when a card fails, as the request then ends. */
  method CollectFolders(host: Host, d: Tree, files: seq<string>) returns (r: Option<seq<FolderInfo>>)
    ensures r == FoldersOf(host, d, files)
  {
    var folders: seq<FolderInfo> := [];
    var i := 0;
    while i < |files|
      invariant 0 <= i <= |files|
      invariant FoldersOf(host, d, files[..i]) == Some(folders)
    {
      var file := files[i];
      FoldersOfStep(host, d, files, i);
      if !IsDotEntry(file) && IsDir(d, EntryPath(file)) {
        var card := FolderOf(host, d, file);
        if card.None? {
          FoldersOfFails(host, d, files, i + 1);
          return None;
        }
        folders := folders + [card.value];
      }
      i := i + 1;
    }
    assert files[..|files|] == files;
    return Some(folders);
  }

  /** Sorting the cards puts links first, orders each group by `strcasecmp` and keeps every card. */
  lemma SortedFolders(host: Host, d: Tree, files: seq<string>)
    requires FoldersOf(host, d, files).Some?
    ensures var cards := FoldersOf(host, d, files).value;
            var s := Sort(cards, FolderKey);
            && multiset(s) == multiset(cards)
            && (forall i, j :: 0 <= i < j < |s| ==> !(!s[i].isSymlink && s[j].isSymlink))
            && (forall i, j :: 0 <= i < j < |s| && s[i].isSymlink == s[j].isSymlink ==>
                  CaseCmp(s[i].name, s[j].name) <= 0)
            && (forall x :: x in s ==>
                  (x.name in files && !IsDotEntry(x.name) && IsDir(d, EntryPath(x.name)) &&
                   FolderOf(host, d, x.name) == Some(x)))
            && (forall f :: f in files && !IsDotEntry(f) && IsDir(d, EntryPath(f)) ==> exists x :: x in s && x.name == f)
  {
    var cards := FoldersOf(host, d, files).value;
    var s := Sort(cards, FolderKey);
    FoldersOfMembers(host, d, files);
    SortGroups(cards, FolderKey);
    forall f | f in files && !IsDotEntry(f) && IsDir(d, EntryPath(f)) ensures exists x :: x in s && x.name == f {
      assert FolderOf(host, d, f).value in s;
    }
  }

  /**
   * The two listings of the web root agree on the links: a card is marked as
   * a link exactly when `getSymlinks` lists its name, a truthy card target is
   * the target `getSymlinks` reports, and every listed link that `is_dir`
   * resolves has a card. Only links that do not lead to a directory are
   * listed by `getSymlinks` alone.
   */
  lemma FoldersAgreeWithSymlinks(host: Host, d: Tree, fs: seq<string>)
    requires FoldersOf(host, d, fs).Some?
    ensures forall x :: x in FoldersOf(host, d, fs).value ==>
              (x.isSymlink <==> SymlinkOf(host, x.name) in SymlinksOf(host, d, fs))
    ensures forall x :: x in FoldersOf(host, d, fs).value && x.isSymlink && x.target.Some? && !PhpFalsy(x.target.value) ==>
              SymlinkOf(host, x.name).target == x.target.value
    ensures forall y :: y in SymlinksOf(host, d, fs) && IsDir(d, EntryPath(y.name)) ==>
              exists x :: x in FoldersOf(host, d, fs).value && x.name == y.name && x.isSymlink
  {
    var cards := FoldersOf(host, d, fs).value;
    var links := SymlinksOf(host, d, fs);
    FoldersOfMembers(host, d, fs);
    SymlinksOfMembers(host, d, fs);
    forall x | x in cards
      ensures x.isSymlink <==> SymlinkOf(host, x.name) in links
      ensures x.isSymlink && x.target.Some? && !PhpFalsy(x.target.value) ==> SymlinkOf(host, x.name).target == x.target.value
    {
      assert FolderOf(host, d, x.name) == Some(x);
      if SymlinkOf(host, x.name) in links {
        assert LooksLinked(host, d, EntryPath(SymlinkOf(host, x.name).name));
      }
      if x.isSymlink {
        TargetsAgree(host, EntryPath(x.name));
      }
    }
    forall y | y in links && IsDir(d, EntryPath(y.name))
      ensures exists x :: x in cards && x.name == y.name && x.isSymlink
    {
      var x := FolderOf(host, d, y.name).value;
      assert x in cards;
    }
  }

  /** `getHtdocsFolders()`; None stands for the request ending in an error. */
  method GetHtdocsFolders(host: Host, d: Tree) returns (r: Option<seq<FolderInfo>>)
    ensures r.None? <==> FoldersOf(host, d, WebRootEntries(host)).None?
    ensures r.Some? ==> multiset(r.value) == multiset(FoldersOf(host, d, WebRootEntries(host)).value)
    // links first, each group in strcasecmp order
    ensures r.Some? ==> forall i, j :: 0 <= i < j < |r.value| ==> !(!r.value[i].isSymlink && r.value[j].isSymlink)
    ensures r.Some? ==> forall i, j :: 0 <= i < j < |r.value| && r.value[i].isSymlink == r.value[j].isSymlink ==>
                          CaseCmp(r.value[i].name, r.value[j].name) <= 0
    ensures r.Some? ==> forall x :: x in r.value ==>
              x.name in WebRootEntries(host) && !IsDotEntry(x.name) && IsDir(d, EntryPath(x.name)) &&
              FolderOf(host, d, x.name) == Some(x)
    ensures r.Some? ==> forall f :: f in WebRootEntries(host) && !IsDotEntry(f) && IsDir(d, EntryPath(f)) ==>
              exists x :: x in r.value && x.name == f
  {
    var files := WebRootEntries(host);
    var cards := CollectFolders(host, d, files);
    if cards.None? {
      return None;
    }
    SortedFolders(host, d, files);
    r := Some(Sort(cards.value, FolderKey));
  }
}
