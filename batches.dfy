/**
 * The batch files the back end writes into the web root so that a `mklink /D`
 * or `rmdir` can run with administrator rights: where each one is written, what
 * writing it returns, and what running a quick (auto-run) script does to the
 * disk. The script text itself is not modelled; its effect is.
 */
module Batches {
  import opened Text
  import opened Disk

  const BatchSuffix: string := ".bat"

  predicate InWebRoot(p: string)
  {
    |p| > |HtdocsPath| + 1 && p[..|HtdocsPath| + 1] == HtdocsPath + [Sep]
  }

  predicate EndsWithBat(p: string)
  {
    |p| >= |BatchSuffix| && p[|p| - |BatchSuffix|..] == BatchSuffix
  }

  /** The file `htdocs\<file>`; a `.bat` file in the web root when `file` ends in `.bat`. */
  function WebRootFile(file: string): (p: string)
    requires |file| >= |BatchSuffix| && file[|file| - |BatchSuffix|..] == BatchSuffix
    ensures InWebRoot(p) && EndsWithBat(p)
    ensures p[|HtdocsPath| + 1..] == file
  {
    var p := HtdocsPath + [Sep] + file;
    assert p[|p| - |BatchSuffix|..] == file[|file| - |BatchSuffix|..];
    p
  }

  /** `htdocs\symlink_<name>_<time>.bat` (index.php:444): a `.bat` file in the web root. */
  function QuickCreateBatchPath(name: string, now: nat): (p: string)
    ensures InWebRoot(p) && EndsWithBat(p)
  {
    var file := "symlink_" + name + "_" + NatToString(now) + BatchSuffix;
    WebRootFile(file)
  }

  /** `htdocs\remove_<name>_<time>.bat` (index.php:547). */
  function QuickRemoveBatchPath(name: string, now: nat): (p: string)
    ensures InWebRoot(p) && EndsWithBat(p)
  {
    var file := "remove_" + name + "_" + NatToString(now) + BatchSuffix;
    WebRootFile(file)
  }

  /** `htdocs\temp_symlink_<time>.bat` (index.php:476): the project name is not part of it. */
  function ManualCreateBatchPath(now: nat): (p: string)
    ensures InWebRoot(p) && EndsWithBat(p)
  {
    var file := "temp_symlink_" + NatToString(now) + BatchSuffix;
    WebRootFile(file)
  }

  /** `htdocs\temp_remove_<time>.bat` (index.php:579). */
  function ManualRemoveBatchPath(now: nat): (p: string)
    ensures InWebRoot(p) && EndsWithBat(p)
  {
    var file := "temp_remove_" + NatToString(now) + BatchSuffix;
    WebRootFile(file)
  }

  /** Distinct numbers have distinct decimal renderings. */
  lemma {:induction false} NatToStringInjective(a: nat, b: nat)
    requires NatToString(a) == NatToString(b)
    ensures a == b
    decreases a
  {
    if a >= 10 && b >= 10 {
      var sa, sb := NatToString(a), NatToString(b);
      assert sa[..|sa| - 1] == NatToString(a / 10);
      assert sb[..|sb| - 1] == NatToString(b / 10);
      NatToStringInjective(a / 10, b / 10);
      assert Digit(a % 10) == Digit(b % 10);
    } else {
      assert Digit(a) == Digit(b);
    }
  }

  /** In `<name>_<digits>` the underscore is the last non-digit. */
  lemma StampShape(n: string, t: nat)
    ensures (n + "_" + NatToString(t))[|n|] == '_'
    ensures forall i :: |n| < i < |n + "_" + NatToString(t)| ==> IsDigit((n + "_" + NatToString(t))[i])
  {
    var s := NatToString(t);
    assert forall i :: |n| < i < |n + "_" + s| ==> (n + "_" + s)[i] == s[i - |n| - 1];
  }

  /** `<name>_<digits>` determines both the name and the number. */
  lemma {:induction false} NameStampInjective(n1: string, t1: nat, n2: string, t2: nat)
    requires n1 + "_" + NatToString(t1) == n2 + "_" + NatToString(t2)
    ensures n1 == n2 && t1 == t2
  {
    var s1, s2 := NatToString(t1), NatToString(t2);
    var m := n1 + "_" + s1;
    assert |s1| == |s2| by {
      if |s1| != |s2| {
        StampShape(n1, t1);
        StampShape(n2, t2);
        assert false;
      }
    }
    assert s1 == m[|m| - |s1|..] == s2;
    assert n1 == m[..|n1|] == n2;
    NatToStringInjective(t1, t2);
  }

  /** Two quick create scripts share a file only for the same project in the same second. */
  lemma QuickCreateBatchPathInjective(n1: string, t1: nat, n2: string, t2: nat)
    requires QuickCreateBatchPath(n1, t1) == QuickCreateBatchPath(n2, t2)
    ensures n1 == n2 && t1 == t2
  {
    var p := HtdocsPath + [Sep] + "symlink_";
    var x1, x2 := n1 + "_" + NatToString(t1), n2 + "_" + NatToString(t2);
    assert QuickCreateBatchPath(n1, t1) == p + x1 + BatchSuffix;
    assert QuickCreateBatchPath(n2, t2) == p + x2 + BatchSuffix;
    assert x1 == (p + x1 + BatchSuffix)[|p|..|p| + |x1|];
    NameStampInjective(n1, t1, n2, t2);
  }

  /** Two quick remove scripts share a file only for the same project in the same second. */
  lemma QuickRemoveBatchPathInjective(n1: string, t1: nat, n2: string, t2: nat)
    requires QuickRemoveBatchPath(n1, t1) == QuickRemoveBatchPath(n2, t2)
    ensures n1 == n2 && t1 == t2
  {
    var p := HtdocsPath + [Sep] + "remove_";
    var x1, x2 := n1 + "_" + NatToString(t1), n2 + "_" + NatToString(t2);
    assert QuickRemoveBatchPath(n1, t1) == p + x1 + BatchSuffix;
    assert QuickRemoveBatchPath(n2, t2) == p + x2 + BatchSuffix;
    assert x1 == (p + x1 + BatchSuffix)[|p|..|p| + |x1|];
    NameStampInjective(n1, t1, n2, t2);
  }

  /** A create script and a remove script never share a file. */
  lemma CreateAndRemoveBatchesDiffer(n1: string, t1: nat, n2: string, t2: nat)
    ensures QuickCreateBatchPath(n1, t1) != QuickRemoveBatchPath(n2, t2)
    ensures ManualCreateBatchPath(t1) != ManualRemoveBatchPath(t2)
  {
    var i := |HtdocsPath| + 1;
    assert QuickCreateBatchPath(n1, t1)[i] == 's';
    assert QuickRemoveBatchPath(n2, t2)[i] == 'r';
    assert ManualCreateBatchPath(t1)[i + 5] == 's';
    assert ManualRemoveBatchPath(t2)[i + 5] == 'r';
  }

  /** A path that ends in neither separator is its own key up to `/`. */
  lemma KeyKeepsLength(p: string)
    requires p != [] && p[|p| - 1] != '/' && p[|p| - 1] != Sep
    ensures |Key(p)| == |p|
  {
    var r := Replace(p, '/', Sep);
    assert r[|r| - 1] == p[|p| - 1];
  }

  /** A batch file never takes the place of the link it is written for. */
  lemma BatchIsNotDest(name: string, now: nat)
    ensures Key(QuickCreateBatchPath(name, now)) != Key(DestPath(name))
    ensures Key(QuickRemoveBatchPath(name, now)) != Key(DestPath(name))
  {
    KeyKeepsLength(QuickCreateBatchPath(name, now));
    KeyKeepsLength(QuickRemoveBatchPath(name, now));
  }

  /** What `createSymlinkBatch` and `createRemoveBatch` return. */
  datatype ManualBatch =
    | Written(batchPath: string, command: string)
    | NotWritten
  {
    predicate Success() { Written? }

    function Message(): string
    {
      if Written? then "Batch file created" else "Could not create batch file"
    }
  }

  /** `createSymlinkBatchQuick(source, name)` (index.php:440-472): the path of the script, if it was written. */
  method WriteQuickCreateBatch(vol: Volume, name: string, now: nat, permitted: bool) returns (batch: Option<string>)
    modifies vol
    ensures batch.Some? <==> permitted && Writable(old(vol.entries), QuickCreateBatchPath(name, now))
    ensures batch.Some? ==> batch.value == QuickCreateBatchPath(name, now)
    ensures vol.entries == if batch.Some? then old(vol.entries)[Key(QuickCreateBatchPath(name, now)) := File]
                           else old(vol.entries)
  {
    var path := QuickCreateBatchPath(name, now);
    var ok := vol.WriteFile(path, permitted);
    batch := if ok then Some(path) else None;
  }

  /** `createRemoveSymlinkBatchQuick(name)` (index.php:543-575). */
  method WriteQuickRemoveBatch(vol: Volume, name: string, now: nat, permitted: bool) returns (batch: Option<string>)
    modifies vol
    ensures batch.Some? <==> permitted && Writable(old(vol.entries), QuickRemoveBatchPath(name, now))
    ensures batch.Some? ==> batch.value == QuickRemoveBatchPath(name, now)
    ensures vol.entries == if batch.Some? then old(vol.entries)[Key(QuickRemoveBatchPath(name, now)) := File]
                           else old(vol.entries)
  {
    var path := QuickRemoveBatchPath(name, now);
    var ok := vol.WriteFile(path, permitted);
    batch := if ok then Some(path) else None;
  }

  /** `createSymlinkBatch(source, name)` (index.php:475-540): the script for the user to run. */
  method WriteManualCreateBatch(vol: Volume, name: string, now: nat, permitted: bool) returns (r: ManualBatch)
    modifies vol
    ensures r.Success() <==> permitted && Writable(old(vol.entries), ManualCreateBatchPath(now))
    ensures r.Success() ==> r == Written(ManualCreateBatchPath(now), "\"" + ManualCreateBatchPath(now) + "\"")
    ensures vol.entries == if r.Success() then old(vol.entries)[Key(ManualCreateBatchPath(now)) := File]
                           else old(vol.entries)
  {
    var path := ManualCreateBatchPath(now);
    var ok := vol.WriteFile(path, permitted);
    r := if ok then Written(path, "\"" + path + "\"") else NotWritten;
  }

  /** `createRemoveBatch(name)` (index.php:578-646). */
  method WriteManualRemoveBatch(vol: Volume, name: string, now: nat, permitted: bool) returns (r: ManualBatch)
    modifies vol
    ensures r.Success() <==> permitted && Writable(old(vol.entries), ManualRemoveBatchPath(now))
    ensures r.Success() ==> r == Written(ManualRemoveBatchPath(now), "\"" + ManualRemoveBatchPath(now) + "\"")
    ensures vol.entries == if r.Success() then old(vol.entries)[Key(ManualRemoveBatchPath(now)) := File]
                           else old(vol.entries)
  {
    var path := ManualRemoveBatchPath(now);
    var ok := vol.WriteFile(path, permitted);
    r := if ok then Written(path, "\"" + path + "\"") else NotWritten;
  }

  /**
   * The quick create script, run elevated: `mklink /D "<name>" "<source>"` in
   * the web root, then `del "%~f0"` removes the script itself.
   */
  method RunQuickCreateScript(vol: Volume, name: string, source: string, batchPath: string)
    modifies vol
    requires Key(batchPath) in vol.entries && vol.entries[Key(batchPath)] == File
    requires Key(batchPath) != Key(DestPath(name))
    ensures Present(old(vol.entries), DestPath(name)) ==> vol.entries == old(vol.entries) - {Key(batchPath)}
    ensures !Present(old(vol.entries), DestPath(name)) ==>
              vol.entries == old(vol.entries)[Key(DestPath(name)) := Link(source)] - {Key(batchPath)}
  {
    var _ := vol.MakeDirLink(DestPath(name), source);
    vol.DeleteFile(batchPath);
  }

  /** The quick remove script, run elevated: `rmdir "<name>"` in the web root, then the script deletes itself. */
  method RunQuickRemoveScript(vol: Volume, name: string, batchPath: string)
    modifies vol
    requires Key(batchPath) in vol.entries && vol.entries[Key(batchPath)] == File
    requires Key(batchPath) != Key(DestPath(name))
    ensures RmdirRemoves(old(vol.entries), DestPath(name)) ==>
              vol.entries == old(vol.entries) - {Key(DestPath(name)), Key(batchPath)}
    ensures !RmdirRemoves(old(vol.entries), DestPath(name)) ==> vol.entries == old(vol.entries) - {Key(batchPath)}
  {
    var _ := vol.Rmdir(DestPath(name), true);
    vol.DeleteFile(batchPath);
  }
}
