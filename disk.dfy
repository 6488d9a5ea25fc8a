/**
 * The Windows file system as the back end sees it through PHP's stat family:
 * a map from canonical path to entry, the probes `file_exists`, `is_dir`,
 * `is_file` and `is_link`, and a `Volume` object whose methods are the
 * mutating primitives the back end and its generated batch scripts use
 * (`file_put_contents`, `mkdir`, `rename`, `rmdir`, `mklink /D`, `del`).
 */
module Disk {
  import opened Text

  /** PHP's DIRECTORY_SEPARATOR on Windows. */
  const Sep: char := '\\'

  /** The web server's document root (index.php:12). */
  const HtdocsPath: string := "C:\\xampp\\htdocs"

  /** Windows stops resolving a path after this many reparse points. */
  function MaxReparseDepth(): nat { 63 }

  /** What one directory entry is, before any link is followed. */
  datatype Entry = File | Dir | Link(target: string) | Junction(target: string)
  {
    predicate IsReparse() { Link? || Junction? }
  }

  type Tree = map<string, Entry>

  /**
   * Windows accepts `/` and `\` alike and ignores trailing separators, so
   * every path is looked up under this canonical spelling.
   */
  function Key(p: string): (k: string)
    ensures |k| <= |p|
    ensures '/' !in k
    ensures k == [] || k[|k| - 1] != Sep
  {
    ReplaceRemoves(p, '/', Sep);
    var r := Replace(p, '/', Sep);
    var k := TrimRight(r, Sep);
    assert forall i :: 0 <= i < |k| ==> k[i] == r[i];
    k
  }

  /** `htdocs\<name>`: where a link called `name` lives (index.php:231, 284, 396). */
  function DestPath(name: string): string
  {
    HtdocsPath + [Sep] + name
  }

  /**
   * Follows the link chain that starts at key `k` and reports the file or
   * directory it ends in; None for a missing entry, a dangling link or a
   * chain longer than `fuel`.
   */
  function Follow(d: Tree, k: string, fuel: nat): (r: Option<Entry>)
    ensures r.Some? ==> r.value == File || r.value == Dir
    ensures r.Some? ==> k in d
    decreases fuel
  {
    if k !in d then None
    else match d[k]
      case File => Some(File)
      case Dir => Some(Dir)
      case Link(t) => if fuel == 0 then None else Follow(d, Key(t), fuel - 1)
      case Junction(t) => if fuel == 0 then None else Follow(d, Key(t), fuel - 1)
  }

  function Resolve(d: Tree, p: string): Option<Entry>
  {
    Follow(d, Key(p), MaxReparseDepth())
  }

  /** `file_exists(p)`: follows links, so a dangling link does not exist. */
  predicate FileExists(d: Tree, p: string) { Resolve(d, p).Some? }

  /** `is_dir(p)`: follows links. */
  predicate IsDir(d: Tree, p: string) { Resolve(d, p) == Some(Dir) }

  /** `is_file(p)`: follows links. */
  predicate IsFile(d: Tree, p: string) { Resolve(d, p) == Some(File) }

  /** `is_link(p)`: looks at the entry itself; a junction is not reported as a link. */
  predicate IsLink(d: Tree, p: string) { Key(p) in d && d[Key(p)].Link? }

  /** The entry itself is there, whether or not it leads anywhere. */
  predicate Present(d: Tree, p: string) { Key(p) in d }

  lemma ProbesAgree(d: Tree, p: string)
    ensures IsDir(d, p) ==> FileExists(d, p) && !IsFile(d, p) && Present(d, p)
    ensures IsFile(d, p) ==> FileExists(d, p) && !IsDir(d, p) && Present(d, p)
    ensures FileExists(d, p) <==> IsDir(d, p) || IsFile(d, p)
    ensures IsLink(d, p) ==> Present(d, p)
    ensures !Present(d, p) ==> !FileExists(d, p) && !IsLink(d, p)
  {
  }

  /** Writing a file creates no new way of reaching a directory. */
  lemma {:induction false} WriteAddsNoDir(d: Tree, b: string, k: string, fuel: nat)
    ensures Follow(d[b := File], k, fuel) == Some(Dir) ==> Follow(d, k, fuel) == Some(Dir)
    decreases fuel
  {
    if k != b && k in d && fuel > 0 {
      match d[k]
      case File =>
      case Dir =>
      case Link(t) => WriteAddsNoDir(d, b, Key(t), fuel - 1);
      case Junction(t) => WriteAddsNoDir(d, b, Key(t), fuel - 1);
    }
  }

  /** Removing an entry can only cut a chain: whatever still resolves, resolves as before. */
  lemma {:induction false} RemoveOnlyCuts(d: Tree, b: string, k: string, fuel: nat)
    ensures Follow(d - {b}, k, fuel).Some? ==> Follow(d - {b}, k, fuel) == Follow(d, k, fuel)
    decreases fuel
  {
    if k != b && k in d && fuel > 0 {
      match d[k]
      case File =>
      case Dir =>
      case Link(t) => RemoveOnlyCuts(d, b, Key(t), fuel - 1);
      case Junction(t) => RemoveOnlyCuts(d, b, Key(t), fuel - 1);
    }
  }

  /** Writing `/` or `\` names the same entry. */
  lemma KeyIgnoresSlashes(p: string)
    ensures Key(Replace(p, '/', Sep)) == Key(p)
  {
    assert Replace(Replace(p, '/', Sep), '/', Sep) == Replace(p, '/', Sep);
  }

  /** `c` names an entry strictly inside the directory with key `k`. */
  predicate Below(c: string, k: string)
  {
    |c| > |k| + 1 && c[..|k| + 1] == k + [Sep]
  }

  predicate HasChildren(d: Tree, k: string)
  {
    exists c :: c in d && Below(c, k)
  }

  /** What a plain `rmdir "p"` (no /S) removes: a link, a junction or an empty directory. */
  predicate RmdirRemoves(d: Tree, p: string)
  {
    var k := Key(p);
    k in d && (d[k].IsReparse() || (d[k] == Dir && !HasChildren(d, k)))
  }

  /**
   * `file_put_contents(p, …)` can only create or replace a plain file, and
   * only inside a folder that exists: every ancestor of `p` must resolve to
   * a directory (possibly through a link or junction).
   */
  predicate Writable(d: Tree, p: string)
  {
    (Key(p) !in d || d[Key(p)] == File) && InFolder(d, p)
  }

  /** Every ancestor of `p` resolves to a directory: the folder `p` would go in exists. */
  predicate InFolder(d: Tree, p: string)
  {
    forall a :: a in Ancestors(Key(p)) ==> Follow(d, a, MaxReparseDepth()) == Some(Dir)
  }

  /** Adding an entry under a fresh key changes nothing that already resolved. */
  lemma {:induction false} AddKeepsResolved(d: Tree, k: string, e: Entry, a: string, fuel: nat)
    requires k !in d
    ensures Follow(d, a, fuel).Some? ==> Follow(d[k := e], a, fuel) == Follow(d, a, fuel)
    decreases fuel
  {
    if a in d && fuel > 0 {
      match d[a]
      case File =>
      case Dir =>
      case Link(t) => AddKeepsResolved(d, k, e, Key(t), fuel - 1);
      case Junction(t) => AddKeepsResolved(d, k, e, Key(t), fuel - 1);
    }
  }

  /** The proper prefixes of key `k` that end just before a separator: its ancestor directories. */
  function Ancestors(k: string): set<string>
  {
    set i | 0 < i < |k| && k[i] == Sep :: k[..i]
  }

  /** `mkdir(p, 0777, true)` succeeds when the entry is new and no ancestor is a file. */
  predicate MkdirAllowed(d: Tree, p: string)
  {
    Key(p) !in d && forall a :: a in Ancestors(Key(p)) && a in d ==> d[a] != File
  }

  /**
   * The tree after `mkdir(p, 0777, true)` created the entry at `k`: the
   * directory itself and every ancestor that was missing are added, and
   * nothing that was there changes.
   */
  function MakeDirs(d: Tree, k: string): (r: Tree)
    ensures k in r && r[k] == Dir
    ensures forall c :: c in d && c != k ==> c in r && r[c] == d[c]
    ensures forall a :: a in Ancestors(k) ==> a in r && (a !in d ==> r[a] == Dir)
    ensures forall c :: c in r ==> c in d || c == k || c in Ancestors(k)
  {
    (d + map a | a in Ancestors(k) && a !in d :: Dir)[k := Dir]
  }

  /** `c` is `k` itself or lies below it: what moves when `k` is renamed. */
  predicate InSubtree(c: string, k: string)
  {
    c == k || Below(c, k)
  }

  /** The keys the subtree at `ko` occupies once it has moved to `kn`. */
  function MovedKeys(d: Tree, ko: string, kn: string): set<string>
  {
    set c | c in d && InSubtree(c, ko) :: kn + c[|ko|..]
  }

  /** Every moved key comes from an entry of the old subtree. */
  lemma MovedKeysOrigin(d: Tree, ko: string, kn: string, n: string)
    requires n in MovedKeys(d, ko, kn)
    ensures |kn| <= |n| && ko + n[|kn|..] in d && InSubtree(n, kn)
  {
    var c :| c in d && InSubtree(c, ko) && n == kn + c[|ko|..];
    assert n[|kn|..] == c[|ko|..];
    if c != ko {
      assert c[..|ko|] == (c[..|ko| + 1])[..|ko|];
      assert c == ko + c[|ko|..];
      assert n[..|kn| + 1] == kn + [Sep];
    }
    assert ko + n[|kn|..] == c;
  }

  /** Every entry of the old subtree has a moved key, which leads back to it. */
  lemma MovedKeysCover(d: Tree, ko: string, kn: string, c: string)
    requires c in d && InSubtree(c, ko)
    ensures |ko| <= |c| && kn + c[|ko|..] in MovedKeys(d, ko, kn) && ko + (kn + c[|ko|..])[|kn|..] == c
  {
    var n := kn + c[|ko|..];
    assert n[|kn|..] == c[|ko|..];
    if c != ko {
      assert c[..|ko|] == (c[..|ko| + 1])[..|ko|];
    }
    assert ko + c[|ko|..] == c;
  }

  /**
   * The tree after the entry at `ko`, and everything below it, has moved to
   * `kn`: entries outside both subtrees stay, each entry of the old subtree
   * reappears under the new name, and the old names are gone unless they
   * fall inside the new subtree.
   */
  function Moved(d: Tree, ko: string, kn: string): (r: Tree)
    ensures forall c :: c in d && !InSubtree(c, ko) && !InSubtree(c, kn) ==> c in r && r[c] == d[c]
    ensures ko in d ==> kn in r && r[kn] == d[ko]
    ensures forall c :: c in d && InSubtree(c, ko) ==> kn + c[|ko|..] in r && r[kn + c[|ko|..]] == d[c]
    ensures forall c :: InSubtree(c, ko) && !InSubtree(c, kn) ==> c !in r
    ensures forall c :: c in r ==> (c in d && !InSubtree(c, ko)) || InSubtree(c, kn)
  {
    var keys := MovedKeys(d, ko, kn);
    assert forall n :: n in keys ==> |kn| <= |n| && ko + n[|kn|..] in d && InSubtree(n, kn) by {
      forall n | n in keys ensures |kn| <= |n| && ko + n[|kn|..] in d && InSubtree(n, kn) {
        MovedKeysOrigin(d, ko, kn, n);
      }
    }
    assert ko in d ==> kn in keys && ko + kn[|kn|..] == ko by {
      if ko in d {
        assert kn + ko[|ko|..] in keys;
        assert kn + ko[|ko|..] == kn;
      }
    }
    var rest := map c | c in d && !InSubtree(c, ko) :: d[c];
    var moved := map n | n in keys :: d[ko + n[|kn|..]];
    forall c | c in d && InSubtree(c, ko)
      ensures kn + c[|ko|..] in moved && moved[kn + c[|ko|..]] == d[c]
    {
      MovedKeysCover(d, ko, kn, c);
    }
    var r := rest + moved;
    forall c | c in r ensures (c in d && !InSubtree(c, ko)) || InSubtree(c, kn) {
      if c !in rest {
        assert c in keys;
      }
    }
    forall c | InSubtree(c, ko) && !InSubtree(c, kn) ensures c !in r {
      assert c !in rest && c !in keys;
    }
    r
  }

  /** The file system, updated in place by the back end and by the scripts it launches. */
  class Volume {
    var entries: Tree

    constructor (initial: Tree)
      ensures entries == initial
    {
      entries := initial;
    }

    /** `file_put_contents(p, …) !== false`; `permitted` stands for ACLs and disk space. */
    method WriteFile(p: string, permitted: bool) returns (ok: bool)
      modifies this
      ensures ok == (permitted && Writable(old(entries), p))
      ensures entries == if ok then old(entries)[Key(p) := File] else old(entries)
    {
      ok := permitted && Writable(entries, p);
      if ok {
        entries := entries[Key(p) := File];
      }
    }

    /** `rmdir "p"` run by cmd.exe; the exit code is 0 exactly when the entry went away. */
    method Rmdir(p: string, permitted: bool) returns (code: int)
      modifies this
      ensures (code == 0) == (permitted && RmdirRemoves(old(entries), p))
      ensures entries == if code == 0 then old(entries) - {Key(p)} else old(entries)
    {
      var k := Key(p);
      var removable := k in entries && (entries[k].IsReparse() ||
        (entries[k] == Dir && !(exists c | c in entries :: Below(c, k))));
      if permitted && removable {
        entries := entries - {k};
        code := 0;
      } else {
        code := 1;
      }
    }

    /** `mklink /D link target`: fails when anything already has that name. */
    method MakeDirLink(link: string, target: string) returns (ok: bool)
      modifies this
      ensures ok == !Present(old(entries), link)
      ensures entries == if ok then old(entries)[Key(link) := Link(target)] else old(entries)
    {
      ok := Key(link) !in entries;
      if ok {
        entries := entries[Key(link) := Link(target)];
      }
    }

    /** `del "p"` on a file. */
    method DeleteFile(p: string)
      modifies this
      ensures entries == if Key(p) in old(entries) && old(entries)[Key(p)] == File
                         then old(entries) - {Key(p)} else old(entries)
    {
      var k := Key(p);
      if k in entries && entries[k] == File {
        entries := entries - {k};
      }
    }

    /** `mkdir(p, 0777, true)`: creates `p` and every missing ancestor. */
    method MakeDirectories(p: string, permitted: bool) returns (ok: bool)
      modifies this
      ensures ok == (permitted && MkdirAllowed(old(entries), p))
      ensures ok ==> entries == MakeDirs(old(entries), Key(p))
      ensures !ok ==> entries == old(entries)
      ensures ok ==> IsDir(entries, p)
    {
      var k := Key(p);
      ok := permitted && k !in entries && forall a | a in Ancestors(k) && a in entries :: entries[a] != File;
      if ok {
        entries := MakeDirs(entries, k);
      }
    }

    /**
     * `rename(from, to)`: the entry and everything below it move to the new
     * name; Windows refuses to move a folder into itself or below itself.
     */
    method Rename(from: string, to: string, permitted: bool) returns (ok: bool)
      modifies this
      ensures ok == (permitted && Present(old(entries), from) && !Present(old(entries), to) &&
                     !InSubtree(Key(to), Key(from)))
      ensures entries == if ok then Moved(old(entries), Key(from), Key(to)) else old(entries)
    {
      ok := permitted && Key(from) in entries && Key(to) !in entries && !InSubtree(Key(to), Key(from));
      if ok {
        entries := Moved(entries, Key(from), Key(to));
      }
    }
  }
}
