/**
 * How the back end recognises links and reads their targets: `is_junction`
 * (a marker test on the output of `fsutil reparsepoint query`), the
 * `Print Name:` capture used when `readlink` gives nothing, the target chain of
 * `getSymlinks` and `getHtdocsFolders`, and the verdict of `checkSymlink`.
 */
module Probe {
  import opened Text
  import opened Disk

  /**
   * The answers of the host that the model cannot compute from the disk map:
   * whether PHP runs on Windows, the text `fsutil reparsepoint query "p" 2>NUL`
   * prints ("" when it prints nothing), what `readlink(p)` returns (None for
   * false), what `scandir(p)` returns (None for false) and `is_readable(p)`.
   */
  datatype Host = Host(
    windows: bool,
    fsutil: string -> string,
    readlink: string -> Option<string>,
    scandir: string -> Option<seq<string>>,
    readable: string -> bool)

  // ---------------------------------------------------------------------------
  // is_junction (index.php:369-391)
  // ---------------------------------------------------------------------------

  const ReparseTagMarker: string := "Reparse Tag Value"
  const SymbolicLinkMarker: string := "Symbolic Link"
  const MountPointMarker: string := "Mount Point"

  predicate HasReparseMarker(out: string)
  {
    Contains(out, ReparseTagMarker) || Contains(out, SymbolicLinkMarker) || Contains(out, MountPointMarker)
  }

  /**
   * `is_junction(p)`: on Windows, for a path that exists, whether the fsutil
   * report is non-empty and mentions one of the three reparse markers.
   */
  function IsJunction(host: Host, d: Tree, p: string): (r: bool)
    ensures r ==> host.windows && FileExists(d, p)
    ensures r <==> host.windows && FileExists(d, p) && !PhpFalsy(host.fsutil(p)) &&
                   exists m, i :: m in {ReparseTagMarker, SymbolicLinkMarker, MountPointMarker} &&
                                  OccursAt(host.fsutil(p), m, i)
  {
    ContainsIff(host.fsutil(p), ReparseTagMarker);
    ContainsIff(host.fsutil(p), SymbolicLinkMarker);
    ContainsIff(host.fsutil(p), MountPointMarker);
    if !host.windows then false
    else if !FileExists(d, p) then false
    else if PhpFalsy(host.fsutil(p)) then false
    else HasReparseMarker(host.fsutil(p))
  }

  // ---------------------------------------------------------------------------
  // The capture of /Print Name:\s+(.+)/ under PCRE's leftmost, backtracking search
  // ---------------------------------------------------------------------------

  const PrintNameLabel: string := "Print Name:"

  /** PCRE's `\s`: space, tab, line feed, vertical tab, form feed, carriage return. */
  predicate RegexSpace(c: char)
  {
    c == ' ' || c == '\t' || c == '\n' || c == '\U{000B}' || c == '\U{000C}' || c == '\r'
  }

  /** The length of the run of `\s` characters that starts at `j`: what greedy `\s+` first takes. */
  function SpaceRun(s: string, j: nat): (w: nat)
    requires j <= |s|
    ensures j + w <= |s|
    ensures forall i :: j <= i < j + w ==> RegexSpace(s[i])
    ensures j + w == |s| || !RegexSpace(s[j + w])
    decreases |s| - j
  {
    if j < |s| && RegexSpace(s[j]) then 1 + SpaceRun(s, j + 1) else 0
  }

  /** What greedy `.+` takes from `k`: every character up to the next line feed. */
  function LineFrom(s: string, k: nat): (r: string)
    requires k <= |s|
    ensures k + |r| <= |s| && r == s[k..k + |r|]
    ensures '\n' !in r
    ensures k + |r| == |s| || s[k + |r|] == '\n'
    decreases |s| - k
  {
    if k == |s| || s[k] == '\n' then [] else [s[k]] + LineFrom(s, k + 1)
  }

  /**
   * `\s+(.+)` after the label, with `\s+` holding `w` characters first and
   * giving them back one at a time until `.+` can take at least one.
   */
  function Backtrack(s: string, j: nat, w: nat): (r: Option<string>)
    requires j + w <= |s|
    ensures r.Some? ==> r.value != [] && '\n' !in r.value
    decreases w
  {
    if w == 0 then None
    else if j + w < |s| && s[j + w] != '\n' then
      var line := LineFrom(s, j + w);
      assert s[j + w] == line[0];
      Some(line)
    else Backtrack(s, j, w - 1)
  }

  /** The capture when the match starts at index `i`, where the label occurs. */
  function MatchAt(s: string, i: nat): Option<string>
    requires OccursAt(s, PrintNameLabel, i)
  {
    var j := i + |PrintNameLabel|;
    Backtrack(s, j, SpaceRun(s, j))
  }

  /** `preg_match('/Print Name:\s+(.+)/', s, m)`: group 1 of the leftmost match at or after `from`. */
  function PrintNameFrom(s: string, from: nat): (r: Option<string>)
    ensures r.Some? ==> r.value != [] && '\n' !in r.value
    decreases |s| - from
  {
    if from + |PrintNameLabel| > |s| then None
    else if OccursAt(s, PrintNameLabel, from) && MatchAt(s, from).Some? then MatchAt(s, from)
    else PrintNameFrom(s, from + 1)
  }

  function PrintName(s: string): Option<string>
  {
    PrintNameFrom(s, 0)
  }

  /** The line fsutil prints for a reparse point whose print name is `t`. */
  function PrintNameLine(pad: string, t: string): string
  {
    PrintNameLabel + pad + t + "\r\n"
  }

  /** A target written on fsutil's `Print Name:` line is read back, with the carriage return still attached. */
  lemma {:induction false} PrintNameRoundTrip(pad: string, t: string)
    requires pad != [] && forall i :: 0 <= i < |pad| ==> RegexSpace(pad[i])
    requires t != [] && !RegexSpace(t[0]) && '\n' !in t
    ensures PrintName(PrintNameLine(pad, t)) == Some(t + "\r")
  {
    var s := PrintNameLine(pad, t);
    var j := |PrintNameLabel|;
    assert s[..j] == PrintNameLabel;
    assert OccursAt(s, PrintNameLabel, 0);
    SpaceRunExact(s, j, j + |pad|);
    assert s[j + |pad|] == t[0];
    LineExact(s, j + |pad|, j + |pad| + |t| + 1);
    assert s[j + |pad|..j + |pad| + |t| + 1] == t + "\r";
  }

  lemma {:induction false} SpaceRunExact(s: string, j: nat, m: nat)
    requires j <= m <= |s|
    requires forall i :: j <= i < m ==> RegexSpace(s[i])
    requires m == |s| || !RegexSpace(s[m])
    ensures SpaceRun(s, j) == m - j
    decreases m - j
  {
    if j < m {
      SpaceRunExact(s, j + 1, m);
    }
  }

  lemma {:induction false} LineExact(s: string, k: nat, m: nat)
    requires k <= m <= |s|
    requires forall i :: k <= i < m ==> s[i] != '\n'
    requires m == |s| || s[m] == '\n'
    ensures LineFrom(s, k) == s[k..m]
    decreases m - k
  {
    if k < m {
      LineExact(s, k + 1, m);
      assert s[k..m] == [s[k]] + s[k + 1..m];
    }
  }

  // ---------------------------------------------------------------------------
  // Link targets (index.php:343-356 and 836-846)
  // ---------------------------------------------------------------------------

  /** `trim` of the `Print Name:` capture, when there is one. */
  function FsutilTarget(out: string): Option<string>
  {
    match PrintName(out)
    case Some(c) => Some(PhpTrim(c))
    case None => None
  }

  /**
   * The target `getSymlinks` reports: a truthy `readlink` result, else the
   * trimmed fsutil capture if it is truthy, else "N/A".
   */
  function SymlinkTarget(host: Host, p: string): (r: string)
    ensures !PhpFalsy(r)
    ensures r == "N/A" || host.readlink(p) == Some(r) || FsutilTarget(host.fsutil(p)) == Some(r)
    ensures host.readlink(p).Some? && !PhpFalsy(host.readlink(p).value) ==> r == host.readlink(p).value
  {
    var rl := host.readlink(p);
    if rl.Some? && !PhpFalsy(rl.value) then rl.value
    else match FsutilTarget(host.fsutil(p))
      case Some(t) => if PhpFalsy(t) then "N/A" else t
      case None => "N/A"
  }

  /** When `readlink` fails, the name on fsutil's `Print Name:` line is the reported target. */
  lemma SymlinkTargetFromFsutil(host: Host, p: string, pad: string, t: string)
    requires host.readlink(p).None? || PhpFalsy(host.readlink(p).value)
    requires host.fsutil(p) == PrintNameLine(pad, t)
    requires pad != [] && forall i :: 0 <= i < |pad| ==> RegexSpace(pad[i])
    requires t != [] && !RegexSpace(t[0]) && !PhpSpace(t[0]) && !PhpSpace(t[|t| - 1])
    requires '\n' !in t && !PhpFalsy(t)
    ensures SymlinkTarget(host, p) == t
  {
    PrintNameRoundTrip(pad, t);
    TrimCarriageReturn(t);
    assert FsutilTarget(host.fsutil(p)) == Some(t);
  }

  /** `trim` takes off the carriage return fsutil leaves at the end of the capture. */
  lemma TrimCarriageReturn(t: string)
    requires t != [] && !PhpSpace(t[0]) && !PhpSpace(t[|t| - 1])
    ensures PhpTrim(t + "\r") == t
  {
    var s := t + "\r";
    assert TrimStart(s, PhpSpace) == s;
    assert s[..|s| - 1] == t;
    assert TrimEnd(s, PhpSpace) == TrimEnd(t, PhpSpace) == t;
  }

  /**
   * The `target` field of `getHtdocsFolders`: "" for a plain folder; for a link,
   * a truthy `readlink` result, else the trimmed capture whatever it is, else
   * what `readlink` returned (None standing for `false`). There is no "N/A".
   */
  function FolderTarget(host: Host, p: string, isSymlink: bool): (r: Option<string>)
    ensures !isSymlink ==> r == Some("")
    ensures isSymlink && host.readlink(p).Some? && !PhpFalsy(host.readlink(p).value) ==> r == host.readlink(p)
    ensures isSymlink && (host.readlink(p).None? || PhpFalsy(host.readlink(p).value)) ==>
              r == if FsutilTarget(host.fsutil(p)).Some? then FsutilTarget(host.fsutil(p)) else host.readlink(p)
  {
    if !isSymlink then Some("")
    else
      var rl := host.readlink(p);
      if rl.Some? && !PhpFalsy(rl.value) then rl
      else if FsutilTarget(host.fsutil(p)).Some? then FsutilTarget(host.fsutil(p))
      else rl
  }

  /** Where the two listings disagree: a truthy target is reported alike, a missing one as "N/A" only by `getSymlinks`. */
  lemma TargetsAgree(host: Host, p: string)
    ensures FolderTarget(host, p, true).Some? && !PhpFalsy(FolderTarget(host, p, true).value) ==>
              SymlinkTarget(host, p) == FolderTarget(host, p, true).value
    ensures FolderTarget(host, p, true).None? || PhpFalsy(FolderTarget(host, p, true).value) ==>
              SymlinkTarget(host, p) == "N/A"
  {
  }

  // ---------------------------------------------------------------------------
  // checkSymlink (index.php:394-437)
  // ---------------------------------------------------------------------------

  datatype Check =
    | NotFound(path: string)
    | NormalFolder(path: string)
    | LinkFound(path: string)
    | NotALink(path: string)
  {
    /** The `exists` field of the JSON answer. */
    predicate Exists() { LinkFound? }

    function Message(): string
    {
      match this
      case NotFound(_) => "Symlink/directory not found"
      case NormalFolder(_) => "Normal folder exists but not a symlink"
      case LinkFound(_) => "Symlink found and ready to use"
      case NotALink(_) => "Symlink not found"
    }
  }

  /** `checkSymlink(name)` against the disk `d`. */
  function CheckSymlink(host: Host, d: Tree, name: string): (r: Check)
    ensures r.path == DestPath(name)
    ensures r.NotFound? <==> !FileExists(d, DestPath(name))
    ensures r.Exists() <==> FileExists(d, DestPath(name)) &&
                            (IsLink(d, DestPath(name)) || IsJunction(host, d, DestPath(name)))
    ensures r.NormalFolder? <==> IsDir(d, DestPath(name)) &&
                                 !IsLink(d, DestPath(name)) && !IsJunction(host, d, DestPath(name))
    ensures r.NotALink? <==> IsFile(d, DestPath(name)) &&
                             !IsLink(d, DestPath(name)) && !IsJunction(host, d, DestPath(name))
  {
    var target := DestPath(name);
    if !FileExists(d, target) then NotFound(target)
    else
      var isSymlink := IsLink(d, target);
      var isJunction := IsJunction(host, d, target);
      if IsDir(d, target) && !isSymlink && !isJunction then NormalFolder(target)
      else if isSymlink || isJunction then LinkFound(target)
      else NotALink(target)
  }

  /** A link whose target has gone away is reported as not found, not as a link. */
  lemma {:induction false} DanglingLinkNotFound(host: Host, d: Tree, name: string, t: string)
    requires Key(DestPath(name)) in d && d[Key(DestPath(name))] == Link(t)
    requires Follow(d, Key(t), MaxReparseDepth() - 1).None?
    ensures CheckSymlink(host, d, name) == NotFound(DestPath(name))
    ensures !CheckSymlink(host, d, name).Exists()
  {
    assert Resolve(d, DestPath(name)) == Follow(d, Key(t), MaxReparseDepth() - 1);
  }

  /** A symbolic link to a directory is reported as found, whatever fsutil says. */
  lemma {:induction false} LiveLinkFound(host: Host, d: Tree, name: string, t: string)
    requires Key(DestPath(name)) in d && d[Key(DestPath(name))] == Link(t)
    requires Follow(d, Key(t), MaxReparseDepth() - 1) == Some(Dir)
    ensures CheckSymlink(host, d, name) == LinkFound(DestPath(name))
  {
    assert Resolve(d, DestPath(name)) == Follow(d, Key(t), MaxReparseDepth() - 1);
  }
}
