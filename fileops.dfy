/**
 * The file manager's editing operations: `createFile`, `createDirectory` and
 * `renameFile`, each a ladder of checks against the file system followed by
 * one mutating call on the `Volume`, plus the `basename`/`dirname` path
 * helpers `renameFile` relies on.
 */
module FileOps {
  import opened Text
  import opened Disk

  // ---------------------------------------------------------------------------
  // basename and dirname, as PHP computes them on Windows (both `\` and `/`
  // separate); drive letters get no special treatment here.
  // ---------------------------------------------------------------------------

  predicate IsSlash(c: char) { c == '\\' || c == '/' }

  /** `p` without its trailing separators. */
  function DropSlashes(p: string): (t: string)
    ensures t <= p
    ensures t == [] || !IsSlash(t[|t| - 1])
    ensures forall i :: |t| <= i < |p| ==> IsSlash(p[i])
  {
    if p == [] || !IsSlash(p[|p| - 1]) then p else DropSlashes(p[..|p| - 1])
  }

  /** What follows the last separator of `t`; all of `t` when it has none. */
  function LastPart(t: string): (b: string)
    ensures |b| <= |t| && b == t[|t| - |b|..]
    ensures forall i :: 0 <= i < |b| ==> !IsSlash(b[i])
    ensures |b| < |t| ==> IsSlash(t[|t| - |b| - 1])
  {
    if t == [] || IsSlash(t[|t| - 1]) then [] else LastPart(t[..|t| - 1]) + [t[|t| - 1]]
  }

  /** `basename(p)`: the last component, trailing separators ignored. */
  function Basename(p: string): (b: string)
    ensures forall i :: 0 <= i < |b| ==> !IsSlash(b[i])
  {
    LastPart(DropSlashes(p))
  }

  /** `dirname(p)`: everything before the last component, "." when there is none, the root kept. */
  function Dirname(p: string): (r: string)
    ensures r <= p || r == "."
  {
    if p == [] then []
    else
      var t := DropSlashes(p);
      if t == [] then [p[0]]
      else
        var b := LastPart(t);
        if |b| == |t| then "."
        else
          var h := DropSlashes(t[..|t| - |b|]);
          if h == [] then [t[0]] else h
  }

  /** A name joined to a directory comes back out of `basename` and `dirname`. */
  lemma {:induction false} JoinSplitsBack(dir: string, name: string)
    requires dir != [] && !IsSlash(dir[|dir| - 1])
    requires name != [] && forall i :: 0 <= i < |name| ==> !IsSlash(name[i])
    ensures Basename(dir + [Sep] + name) == name
    ensures Dirname(dir + [Sep] + name) == dir
  {
    var p := dir + [Sep] + name;
    assert DropSlashes(p) == p;
    LastPartOfJoin(dir, name);
    assert p[..|p| - |name|] == dir + [Sep];
    assert DropSlashes(dir + [Sep]) == DropSlashes((dir + [Sep])[..|dir|]);
    assert (dir + [Sep])[..|dir|] == dir;
  }

  lemma {:induction false} LastPartOfJoin(dir: string, name: string)
    requires forall i :: 0 <= i < |name| ==> !IsSlash(name[i])
    ensures LastPart(dir + [Sep] + name) == name
    decreases |name|
  {
    var p := dir + [Sep] + name;
    if name == [] {
    } else {
      var init := name[..|name| - 1];
      LastPartOfJoin(dir, init);
      assert p[..|p| - 1] == dir + [Sep] + init;
      assert name == init + [name[|name| - 1]];
    }
  }

  // ---------------------------------------------------------------------------
  // createFile (index.php:650-668)
  // ---------------------------------------------------------------------------

  const DefaultExtension: string := ".txt"

  /** The file name actually created: `.txt` is appended when the name has no `.` at all. */
  function WithExtension(name: string): (r: string)
    ensures '.' in r
    ensures name <= r
    ensures ('.' in name) <==> r == name
    ensures '.' !in name ==> r == name + DefaultExtension
  {
    if '.' in name then name else name + DefaultExtension
  }

  datatype CreateFileResult = FileTaken | FileCreated(name: string) | FileFailed
  {
    predicate Success() { FileCreated? }

    function Message(): string
    {
      match this
      case FileTaken => "A file with this name already exists"
      case FileCreated(n) => "File created successfully: " + n
      case FileFailed => "Could not create file"
    }
  }

  /** Where `createFile(basePath, name)` writes. */
  function NewFilePath(basePath: string, name: string): string
  {
    basePath + [Sep] + WithExtension(name)
  }

  /**
   * `createFile(basePath, name)`; `permitted` stands for what the model does
   * not see of `file_put_contents` (ACLs, disk space).
   */
  method CreateFile(vol: Volume, basePath: string, name: string, permitted: bool) returns (r: CreateFileResult)
    modifies vol
    ensures var f := NewFilePath(basePath, name);
            && (FileExists(old(vol.entries), f) ==> r == FileTaken)
            && (!FileExists(old(vol.entries), f) ==>
                  (r == FileCreated(WithExtension(name)) <==> permitted && Writable(old(vol.entries), f)))
            && (r != FileTaken ==> !FileExists(old(vol.entries), f))
            && vol.entries == if r.Success() then old(vol.entries)[Key(f) := File] else old(vol.entries)
    ensures r.Success() ==> IsFile(vol.entries, NewFilePath(basePath, name))
  {
    var fileName := WithExtension(name);
    var newFile := basePath + [Sep] + fileName;
    if FileExists(vol.entries, newFile) {
      return FileTaken;
    }
    var ok := vol.WriteFile(newFile, permitted);
    if ok {
      r := FileCreated(fileName);
    } else {
      r := FileFailed;
    }
  }

  // ---------------------------------------------------------------------------
  // createDirectory (index.php:196-208)
  // ---------------------------------------------------------------------------

  datatype CreateDirResult = DirTaken | DirCreated | DirFailed
  {
    predicate Success() { DirCreated? }

    function Message(): string
    {
      match this
      case DirTaken => "A directory with this name already exists"
      case DirCreated => "Directory created successfully"
      case DirFailed => "Could not create directory"
    }
  }

  /** `createDirectory(basePath, name)`: `mkdir` with missing parents created too. */
  method CreateDirectory(vol: Volume, basePath: string, name: string, permitted: bool) returns (r: CreateDirResult)
    modifies vol
    ensures var p := basePath + [Sep] + name;
            && (FileExists(old(vol.entries), p) ==> r == DirTaken && vol.entries == old(vol.entries))
            && (!FileExists(old(vol.entries), p) ==>
                  (r == DirCreated <==> permitted && MkdirAllowed(old(vol.entries), p)))
            && (r.DirFailed? ==> vol.entries == old(vol.entries))
            && (r.Success() ==> vol.entries == MakeDirs(old(vol.entries), Key(p)))
            && (r.Success() ==> IsDir(vol.entries, p) && !Present(old(vol.entries), p))
  {
    var newPath := basePath + [Sep] + name;
    if FileExists(vol.entries, newPath) {
      return DirTaken;
    }
    var ok := vol.MakeDirectories(newPath, permitted);
    r := if ok then DirCreated else DirFailed;
  }

  // ---------------------------------------------------------------------------
  // renameFile (index.php:762-795)
  // ---------------------------------------------------------------------------

  datatype RenameResult =
    | SourceMissing(oldPath: string)
    | TargetTaken(takenName: string)
    | NoTargetDir
    | DirNotWritable
    | Renamed(newPath: string, newName: string)
    | RenameFailed
  {
    predicate Success() { Renamed? }

    function Message(): string
    {
      match this
      case SourceMissing(p) => "Source file not found: " + p
      case TargetTaken(n) => "A file with this name already exists: " + n
      case NoTargetDir => "Target directory does not exist"
      case DirNotWritable => "No write permission in the directory"
      case Renamed(_, _) => "File renamed successfully"
      case RenameFailed => "Could not rename file"
    }
  }

  /**
   * `renameFile(oldPath, newPath)`. `writable` is PHP's `is_writable`, which
   * looks at ACLs the model does not hold; `permitted` is the same for
   * `rename` itself.
   */
  method RenameFile(vol: Volume, oldPath: string, newPath: string, writable: string -> bool, permitted: bool)
    returns (r: RenameResult)
    modifies vol
    ensures var d := old(vol.entries);
            && (!FileExists(d, oldPath) ==> r == SourceMissing(oldPath))
            && (FileExists(d, oldPath) && FileExists(d, newPath) ==> r == TargetTaken(Basename(newPath)))
            && (FileExists(d, oldPath) && !FileExists(d, newPath) && !IsDir(d, Dirname(newPath)) ==>
                  r == NoTargetDir)
            && ((FileExists(d, oldPath) && !FileExists(d, newPath) && IsDir(d, Dirname(newPath)) &&
                 !writable(Dirname(oldPath))) ==> r == DirNotWritable)
            && ((FileExists(d, oldPath) && !FileExists(d, newPath) && IsDir(d, Dirname(newPath)) &&
                 writable(Dirname(oldPath))) ==>
                  (r.Success() <==> permitted && !Present(d, newPath) && !InSubtree(Key(newPath), Key(oldPath))))
    ensures r.Success() ==> r == Renamed(newPath, Basename(newPath))
    ensures vol.entries == if r.Success() then Moved(old(vol.entries), Key(oldPath), Key(newPath))
                           else old(vol.entries)
    ensures r.Success() ==> Present(vol.entries, newPath) &&
                            vol.entries[Key(newPath)] == old(vol.entries)[Key(oldPath)]
    ensures r.Success() && !InSubtree(Key(oldPath), Key(newPath)) ==> !Present(vol.entries, oldPath)
  {
    if !FileExists(vol.entries, oldPath) {
      return SourceMissing(oldPath);
    }
    if FileExists(vol.entries, newPath) {
      return TargetTaken(Basename(newPath));
    }
    var newDir := Dirname(newPath);
    if !IsDir(vol.entries, newDir) {
      return NoTargetDir;
    }
    if !writable(Dirname(oldPath)) {
      return DirNotWritable;
    }
    var ok := vol.Rename(oldPath, newPath, permitted);
    if ok {
      r := Renamed(newPath, Basename(newPath));
    } else {
      r := RenameFailed;
    }
  }
}
