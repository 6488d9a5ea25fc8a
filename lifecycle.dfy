/**
 * The link lifecycle of the back end: `createSymlink` and `removeSymlink`.
 * Both first probe the web root, then (for removal) try a plain `rmdir`, and
 * otherwise write a quick batch script and launch it elevated, wait three
 * seconds and probe again. What the elevation prompt and the timing do is an
 * input, `Elevation`; every probe reads the disk as it is at that moment.
 */
module Lifecycle {
  import opened Text
  import opened Disk
  import opened Probe
  import opened Batches

  /**
   * What happens to the script launched with `Start-Process … -Verb RunAs`:
   * the prompt is declined (the script never runs), the script finishes
   * within the three-second wait, or it finishes only after the probe.
   */
  datatype Elevation = Declined | Completed | CompletedLate

  /** Which of the answers of `createSymlink` and `removeSymlink` is given. */
  datatype Outcome =
    | LinkExists | LinkCreated | CreateBatchReady | CreateFailed
    | LinkRemoved | LinkRemovedElevated | RemoveBatchReady | RemoveFailed
  {
    predicate Success() { LinkCreated? || LinkRemoved? || LinkRemovedElevated? }

    /** The `auto_executed` flag: set when the elevated script did the work. */
    predicate AutoExecuted() { LinkCreated? || LinkRemovedElevated? }

    function Message(): string
    {
      match this
      case LinkExists => "A link with this name already exists"
      case LinkCreated => "Symlink created successfully!"
      case CreateBatchReady => "Could not create automatically. Batch file is ready, you can run it manually."
      case CreateFailed => "Could not create symlink. Activate Windows Developer Mode or run XAMPP as Administrator."
      case LinkRemoved => "Symlink removed"
      case LinkRemovedElevated => "Symlink removed successfully!"
      case RemoveBatchReady => "Could not remove automatically. Batch file is ready, you can run it manually."
      case RemoveFailed => "Could not remove symlink"
    }
  }

  /**
   * The JSON answer of both operations: `success`, `message` and
   * `auto_executed` follow from the outcome; `batch_created` and `batch_path`
   * are present exactly when `batchPath` is.
   */
  datatype LinkResult = LinkResult(outcome: Outcome, batchPath: Option<string>)
  {
    predicate Success() { outcome.Success() }
  }

  function Answer(o: Outcome): LinkResult { LinkResult(o, None) }

  function BatchReady(o: Outcome, batch: string): LinkResult { LinkResult(o, Some(batch)) }

  /** What the second probe of `removeSymlink` accepts as gone. */
  predicate Gone(d: Tree, p: string)
  {
    !FileExists(d, p) && !IsDir(d, p) && !IsLink(d, p)
  }

  /** The name is taken as far as `createSymlink` is concerned. */
  predicate Taken(d: Tree, name: string)
  {
    FileExists(d, DestPath(name)) || IsLink(d, DestPath(name))
  }

  /**
   * `createSymlink(source, name)` (index.php:229-280). `writePermitted` says
   * whether writing the batch file may succeed; `now` is `time()`.
   */
  method CreateSymlink(vol: Volume, host: Host, source: string, name: string, now: nat,
                       writePermitted: bool, elevation: Elevation) returns (r: LinkResult)
    modifies vol
    // a name that resolves, or is a symbolic link even a dangling one, is refused and nothing changes
    ensures Taken(old(vol.entries), name) ==> r == Answer(LinkExists) && vol.entries == old(vol.entries)
    // otherwise the batch file is written if it can be
    ensures !Taken(old(vol.entries), name) && !(writePermitted && Writable(old(vol.entries), QuickCreateBatchPath(name, now))) ==>
              r == Answer(CreateFailed) && vol.entries == old(vol.entries)
    ensures !Taken(old(vol.entries), name) && writePermitted && Writable(old(vol.entries), QuickCreateBatchPath(name, now)) ==>
              var written := old(vol.entries)[Key(QuickCreateBatchPath(name, now)) := File];
              var made := !Present(old(vol.entries), DestPath(name));
              && (elevation == Declined ==> vol.entries == written)
              && (elevation != Declined && made ==>
                    vol.entries == written[Key(DestPath(name)) := Link(Replace(source, '/', Sep))] - {Key(QuickCreateBatchPath(name, now))})
              && (elevation != Declined && !made ==> vol.entries == written - {Key(QuickCreateBatchPath(name, now))})
              && r == if elevation == Completed && made then Answer(LinkCreated) else BatchReady(CreateBatchReady, QuickCreateBatchPath(name, now))
    // success means the script ran in time and the name was free, and the link is there
    ensures r.Success() <==> (!Taken(old(vol.entries), name) && writePermitted &&
                              Writable(old(vol.entries), QuickCreateBatchPath(name, now)) &&
                              elevation == Completed && !Present(old(vol.entries), DestPath(name)))
    ensures r.Success() ==> (Key(DestPath(name)) in vol.entries &&
                             vol.entries[Key(DestPath(name))] == Link(Replace(source, '/', Sep)))
  {
    var target := Replace(DestPath(name), '/', Sep);
    var src := Replace(source, '/', Sep);
    KeyIgnoresSlashes(DestPath(name));
    var d := vol.entries;
    if (FileExists(d, target) && !IsLink(d, target)) || IsLink(d, target) ||
       (IsDir(d, target) && IsJunction(host, d, target)) {
      if FileExists(d, target) || IsLink(d, target) {
        return Answer(LinkExists);
      }
    }
    var batch := WriteQuickCreateBatch(vol, name, now, writePermitted);
    if batch.None? {
      return Answer(CreateFailed);
    }
    BatchIsNotDest(name, now);
    WriteAddsNoDir(d, Key(batch.value), Key(target), MaxReparseDepth());
    r := AwaitCreate(vol, name, src, batch.value, elevation);
  }

  /**
   * The part of `createSymlink` after the batch file is written
   * (index.php:253-273): launch it, wait, and probe `is_dir || is_link`.
   */
  method AwaitCreate(vol: Volume, name: string, source: string, batch: string, elevation: Elevation)
    returns (r: LinkResult)
    modifies vol
    requires Key(batch) in vol.entries && vol.entries[Key(batch)] == File
    requires Key(batch) != Key(DestPath(name))
    requires !IsDir(vol.entries, DestPath(name)) && !IsLink(vol.entries, DestPath(name))
    ensures var made := !Present(old(vol.entries), DestPath(name));
            && (elevation == Declined ==> vol.entries == old(vol.entries))
            && (elevation != Declined && made ==>
                  vol.entries == old(vol.entries)[Key(DestPath(name)) := Link(source)] - {Key(batch)})
            && (elevation != Declined && !made ==> vol.entries == old(vol.entries) - {Key(batch)})
            && r == if elevation == Completed && made then Answer(LinkCreated) else BatchReady(CreateBatchReady, batch)
  {
    var target := DestPath(name);
    if elevation == Completed {
      ghost var w := vol.entries;
      RunQuickCreateScript(vol, name, source, batch);
      if Present(w, target) {
        RemoveOnlyCuts(w, Key(batch), Key(target), MaxReparseDepth());
      }
    }
    var linked := IsDir(vol.entries, target) || IsLink(vol.entries, target);
    if elevation == CompletedLate {
      RunQuickCreateScript(vol, name, source, batch);
    }
    if linked {
      return Answer(LinkCreated);
    }
    return BatchReady(CreateBatchReady, batch);
  }

  /**
   * `removeSymlink(name)` (index.php:282-329). `rmdirPermitted` says whether
   * the unelevated `rmdir` is allowed; `writePermitted` and `now` are as for
   * `CreateSymlink`.
   */
  method RemoveSymlink(vol: Volume, name: string, now: nat, rmdirPermitted: bool,
                       writePermitted: bool, elevation: Elevation) returns (r: LinkResult)
    modifies vol
    // the plain rmdir is tried on anything is_dir or is_link accepts; a dangling link counts as removed
    ensures var o := old(vol.entries);
            (IsDir(o, DestPath(name)) || IsLink(o, DestPath(name))) &&
            ((rmdirPermitted && RmdirRemoves(o, DestPath(name))) || !FileExists(o, DestPath(name))) ==>
              r == Answer(LinkRemoved) &&
              vol.entries == if rmdirPermitted && RmdirRemoves(o, DestPath(name)) then o - {Key(DestPath(name))} else o
    // otherwise the elevated script is the second attempt
    ensures var o := old(vol.entries);
            var b := QuickRemoveBatchPath(name, now);
            !((IsDir(o, DestPath(name)) || IsLink(o, DestPath(name))) &&
              ((rmdirPermitted && RmdirRemoves(o, DestPath(name))) || !FileExists(o, DestPath(name)))) ==>
              if !(writePermitted && Writable(o, b)) then r == Answer(RemoveFailed) && vol.entries == o
              else
                var w := o[Key(b) := File];
                var ran := if RmdirRemoves(w, DestPath(name)) then w - {Key(DestPath(name)), Key(b)} else w - {Key(b)};
                && vol.entries == (if elevation == Declined then w else ran)
                && r == if Gone(if elevation == Completed then ran else w, DestPath(name))
                        then Answer(LinkRemovedElevated) else BatchReady(RemoveBatchReady, b)
    // a reported removal leaves nothing that file_exists sees
    ensures r.Success() ==> !FileExists(vol.entries, DestPath(name))
    // a name with nothing behind it is reported as removed once the batch file is written
    ensures (!Present(old(vol.entries), DestPath(name)) && writePermitted &&
             Writable(old(vol.entries), QuickRemoveBatchPath(name, now))) ==> r.Success()
  {
    var target := DestPath(name);
    if IsDir(vol.entries, target) || IsLink(vol.entries, target) {
      var code := vol.Rmdir(target, rmdirPermitted);
      if code == 0 || !FileExists(vol.entries, target) {
        return Answer(LinkRemoved);
      }
    }
    var batch := WriteQuickRemoveBatch(vol, name, now, writePermitted);
    if batch.None? {
      return Answer(RemoveFailed);
    }
    BatchIsNotDest(name, now);
    r := AwaitRemove(vol, name, batch.value, elevation);
  }

  /**
   * The part of `removeSymlink` after the batch file is written
   * (index.php:302-322): launch it, wait, and probe that nothing is left.
   */
  method AwaitRemove(vol: Volume, name: string, batch: string, elevation: Elevation) returns (r: LinkResult)
    modifies vol
    requires Key(batch) in vol.entries && vol.entries[Key(batch)] == File
    requires Key(batch) != Key(DestPath(name))
    ensures var w := old(vol.entries);
            var ran := if RmdirRemoves(w, DestPath(name)) then w - {Key(DestPath(name)), Key(batch)}
                       else w - {Key(batch)};
            && vol.entries == (if elevation == Declined then w else ran)
            && r == if Gone(if elevation == Completed then ran else w, DestPath(name))
                    then Answer(LinkRemovedElevated) else BatchReady(RemoveBatchReady, batch)
    ensures r.Success() ==> !FileExists(vol.entries, DestPath(name))
  {
    var target := DestPath(name);
    ghost var w := vol.entries;
    if elevation == Completed {
      RunQuickRemoveScript(vol, name, batch);
    }
    var gone := !FileExists(vol.entries, target) && !IsDir(vol.entries, target) && !IsLink(vol.entries, target);
    if elevation == CompletedLate {
      RunQuickRemoveScript(vol, name, batch);
      if gone {
        RemoveGoneStaysGone(w, Key(target), Key(batch));
      }
    }
    if gone {
      return Answer(LinkRemovedElevated);
    }
    return BatchReady(RemoveBatchReady, batch);
  }

  /** Running the remove script after the probe cannot bring the name back. */
  lemma RemoveGoneStaysGone(w: Tree, k: string, b: string)
    requires Follow(w, k, MaxReparseDepth()).None?
    ensures Follow(w - {k, b}, k, MaxReparseDepth()).None?
    ensures Follow(w - {b}, k, MaxReparseDepth()).None?
  {
    RemoveOnlyCuts(w, b, k, MaxReparseDepth());
    RemoveOnlyCuts(w - {b}, k, k, MaxReparseDepth());
    assert w - {k, b} == (w - {b}) - {k};
  }

  /**
   * On a free name, with the batch file writable and the script completing in
   * time, `createSymlink` adds exactly the link and leaves no batch file.
   */
  method CreateOnFreeName(vol: Volume, host: Host, source: string, name: string, now: nat)
    returns (created: LinkResult)
    modifies vol
    requires !Present(vol.entries, DestPath(name))
    requires Key(QuickCreateBatchPath(name, now)) !in vol.entries
    requires InFolder(vol.entries, QuickCreateBatchPath(name, now))
    ensures created.Success()
    ensures vol.entries == old(vol.entries)[Key(DestPath(name)) := Link(Replace(source, '/', Sep))]
  {
    ghost var o := vol.entries;
    var b := Key(QuickCreateBatchPath(name, now));
    BatchIsNotDest(name, now);
    created := CreateSymlink(vol, host, source, name, now, true, Completed);
    assert o[b := File][Key(DestPath(name)) := Link(Replace(source, '/', Sep))] - {b}
        == o[Key(DestPath(name)) := Link(Replace(source, '/', Sep))];
  }

  /**
   * A link that leads to a directory is removed by `removeSymlink`, and only
   * it, whether the plain `rmdir` is allowed or the elevated script does it.
   */
  method RemoveLiveLink(vol: Volume, name: string, now: nat, rmdirPermitted: bool) returns (removed: LinkResult)
    modifies vol
    requires IsLink(vol.entries, DestPath(name)) && IsDir(vol.entries, DestPath(name))
    requires Key(QuickRemoveBatchPath(name, now)) !in vol.entries
    requires InFolder(vol.entries, QuickRemoveBatchPath(name, now))
    ensures removed.Success()
    ensures vol.entries == old(vol.entries) - {Key(DestPath(name))}
  {
    ghost var o := vol.entries;
    var b := Key(QuickRemoveBatchPath(name, now));
    BatchIsNotDest(name, now);
    removed := RemoveSymlink(vol, name, now, rmdirPermitted, true, Completed);
    assert o[b := File] - {Key(DestPath(name)), b} == o - {Key(DestPath(name))};
  }

  /**
   * A link created to a real directory is reported by `checkSymlink`, and
   * removing it again leaves the disk exactly as it was, batch files
   * included, when both elevated scripts complete in time.
   */
  method CreateThenRemove(vol: Volume, host: Host, source: string, name: string, t1: nat, t2: nat,
                          rmdirPermitted: bool) returns (created: LinkResult, found: Check, removed: LinkResult)
    modifies vol
    requires !Present(vol.entries, DestPath(name))
    requires Key(Replace(source, '/', Sep)) in vol.entries && vol.entries[Key(Replace(source, '/', Sep))] == Dir
    requires Key(QuickCreateBatchPath(name, t1)) !in vol.entries
    requires Key(QuickRemoveBatchPath(name, t2)) !in vol.entries
    requires InFolder(vol.entries, QuickCreateBatchPath(name, t1))
    requires InFolder(vol.entries, QuickRemoveBatchPath(name, t2))
    ensures created.Success() && found.Exists() && removed.Success()
    ensures vol.entries == old(vol.entries)
  {
    ghost var o := vol.entries;
    var src := Replace(source, '/', Sep);
    BatchIsNotDest(name, t2);
    created := CreateOnFreeName(vol, host, source, name, t1);
    assert Follow(vol.entries, Key(src), MaxReparseDepth() - 1) == Some(Dir);
    LiveLinkFound(host, vol.entries, name, src);
    found := CheckSymlink(host, vol.entries, name);
    forall a | a in Ancestors(Key(QuickRemoveBatchPath(name, t2)))
      ensures Follow(vol.entries, a, MaxReparseDepth()) == Some(Dir)
    {
      AddKeepsResolved(o, Key(DestPath(name)), Link(src), a, MaxReparseDepth());
    }
    removed := RemoveLiveLink(vol, name, t2, rmdirPermitted);
    assert o[Key(DestPath(name)) := Link(src)] - {Key(DestPath(name))} == o;
  }
}
