# XAMPP Project Manager — a verified model of its core

XAMPP Project Manager is a single-page tool that lives in XAMPP's web root
(`C:\xampp\htdocs`). Its PHP back end answers AJAX requests. It lists folders,
creates, renames and checks files, and creates and removes the directory
symbolic links (or junctions) that publish a project kept elsewhere on disk
under `http://localhost/<name>`. Creating or removing a link needs
administrator rights, so the back end writes a small batch script into the web
root and launches it elevated, waits three seconds, and probes the disk again.
The browser side lists the web root, marks folders that some link points to,
moves up and down the folder hierarchy, and chooses an icon per file.

This project models that core in Dafny:

- `Text`: the string functions of PHP and JavaScript the code relies on.
  These are `str_replace`, `rtrim`, `trim`, `strpos`, `strtolower`/`toLowerCase`,
  and JavaScript's `split`/`join`.
- `Disk`: the file system as a map from canonical paths to entries (file,
  directory, symbolic link, junction). It holds the probes `file_exists`,
  `is_dir`, `is_file` and `is_link`. The class `Volume` holds the mutating calls
  `file_put_contents`, `mkdir`, `rename`, `rmdir`, `mklink /D` and `del`.
  `is_link` holds only for a symbolic link: PHP on Windows does not report a
  junction as a link. This premise is what makes a dangling junction invisible
  to `createSymlink`'s checks, and what sends `getSymlinks` and
  `getHtdocsFolders` to `is_junction` for junctions.
- `Probe`: how links are recognised and read. This covers `is_junction`, the
  `Print Name:` capture from `fsutil` output, the reported targets, and
  `checkSymlink`.
- `Batches`: where the four batch scripts are written, and what running a
  quick script does to the disk.
- `Lifecycle`: `createSymlink` and `removeSymlink`, step by step. What happens to
  the elevation prompt is an input.
- `Ordering`: the listing comparator (a group flag, then `strcasecmp`) and the
  stable sort `usort` performs.
- `Listing`: `listDirectory`, `getSymlinks` and `getHtdocsFolders`.
- `FileOps`: `createFile`, `createDirectory`, `renameFile`, with PHP's
  `basename`/`dirname`.
- `Browser`: the front-end helpers `isSymlinked`, `navigateUp`,
  `updateBreadcrumb` and `getFileIcon`.

Things the model cannot compute from the disk map are inputs. These are the
host's answers (running on Windows, the `fsutil` report, `readlink`, `scandir`,
`is_readable`, `is_writable`), whether a write, `rmdir` or rename is permitted,
what the elevation prompt does, and the current time. The oracles are
independent of the disk map: nothing ties a link's `readlink` or `fsutil`
answer to the target its entry records, or `scandir` to the entries below a
directory. The listing properties hold for whatever the oracles answer, and
none of the proved properties needs them to agree with the map.

Behaviour of the code worth knowing, which the model keeps as written:

- Removing a name that does not exist reports success. The plain `rmdir` is
  skipped, the batch script is written, and the probe finds nothing
  (`Lifecycle.RemoveSymlink`, last ensures).
- The manual batch files are named `temp_symlink_<time>.bat` and
  `temp_remove_<time>.bat`, without the project name.
- `checkSymlink` on a dangling link answers "not found", because
  `file_exists` follows the link (`Probe.DanglingLinkNotFound`).
- In `removeSymlink`'s first attempt, a dangling link is reported removed
  even when `rmdir` fails, because `!file_exists` holds.
- In `removeSymlink`'s first attempt, a plain `rmdir` also removes an empty
  ordinary folder of that name.
- When the elevated script finishes only after the three-second probe, the
  answer is "batch file is ready", although the link then exists.
- `createSymlink` does not refuse a name held by a dangling junction: neither
  `file_exists` nor `is_link` sees it.

## Model

| member | source | states |
|---|---|---|
| Text.ReplaceRemoves | index.php:130 | `str_replace` of one character by another leaves no occurrence of the replaced character and keeps every other character |
| Text.TrimRight | index.php:131 | `rtrim(p, c)` is a prefix of `p`, does not end in `c`, and only `c` was removed |
| Text.StrPos | index.php:386-388 | `strpos` returns the first index at which the needle occurs, and none when it does not occur |
| Text.ContainsIff | index.php:386-388 | `strpos(...) !== false` holds exactly when the needle occurs somewhere |
| Text.NatToString | index.php:444 | `time()` rendered in decimal: non-empty and digits only |
| Text.Split | index.php:2905 | JavaScript `split` gives at least one piece, and no piece contains the separator |
| Text.JoinSplit | index.php:2905-2907 | joining the pieces of a split gives the string back |
| Text.SplitJoin | index.php:2905-2907 | splitting a join of separator-free pieces gives the pieces back |
| Text.SplitFree | index.php:2905 | a string without the separator splits into itself alone |
| Text.SplitPrefix | index.php:2915 | splitting `a\b` with a separator-free `a` gives `a` followed by the pieces of `b` |
| Text.JoinSnoc | index.php:2920-2921 | appending a separator and a piece to a join is the join of the longer sequence |
| Disk.Key | index.php:130-131 | the normalised path has no `/`, does not end in `\` and is no longer than the input |
| Disk.Follow | index.php:134 | resolving a link chain ends in a file or a directory that is present, or fails |
| Disk.ProbesAgree | index.php:134-138 | `is_dir` and `is_file` exclude each other and both imply `file_exists`; nothing absent exists or is a link |
| Disk.WriteAddsNoDir | index.php:461 | writing a file creates no new directory through any link chain |
| Disk.AddKeepsResolved | index.php:229-280 | adding an entry under a new name leaves every chain that resolved resolving as before |
| Disk.RemoveOnlyCuts | index.php:288-291 | removing an entry changes no resolution except by cutting it |
| Disk.KeyIgnoresSlashes | index.php:234-235 | a path and its `/`-to-`\` normalisation name the same entry |
| Disk.MakeDirs | index.php:203 | after a recursive `mkdir`: the path and every missing ancestor are directories, the entries already there are unchanged, and nothing else is added |
| Disk.Moved | index.php:785 | after a rename, entries outside both subtrees are unchanged, every entry of the old subtree sits under the new name with its old value, the old names are gone unless they lie in the new subtree, and nothing else is present |
| Disk.Volume.WriteFile | index.php:663 | `file_put_contents` succeeds exactly when permitted, the path is absent or a plain file, and every folder above it resolves to a directory (`InFolder`); then that path is a file and nothing else changes |
| Disk.Volume.Rmdir | index.php:288-291 | exit code 0 exactly when permitted and the entry is a link, a junction or an empty directory, which is then removed |
| Disk.Volume.MakeDirLink | index.php:450 | `mklink /D` succeeds exactly when the name is free, and adds just that link |
| Disk.Volume.DeleteFile | index.php:457 | `del` removes the entry if it is a plain file, and nothing else |
| Disk.Volume.MakeDirectories | index.php:203 | recursive `mkdir` succeeds exactly when the path is new and no ancestor is a file; the new state is then `MakeDirs` of the old one |
| Disk.Volume.Rename | index.php:785 | `rename` succeeds exactly when permitted, the source is present, the destination is not, and the destination does not lie inside the source; the subtree moves |
| Probe.IsJunction | index.php:369-391 | true exactly on Windows, for an existing path whose fsutil report is truthy and contains one of the three reparse markers |
| Probe.SpaceRun | index.php:349 | the greedy `\s+` run: all whitespace and maximal |
| Probe.LineFrom | index.php:349 | the greedy `.+` run: a slice of the text with no line feed, ending at a line feed or the end |
| Probe.Backtrack | index.php:349 | a capture after backtracking is non-empty and has no line feed |
| Probe.PrintNameFrom | index.php:349 | the leftmost `Print Name:` capture is non-empty and has no line feed |
| Probe.PrintNameRoundTrip | index.php:348-349 | on fsutil's `Print Name:` line the capture is the target plus the trailing carriage return |
| Probe.SymlinkTarget | index.php:343-356 | the reported target is truthy: a truthy `readlink` result wins, else the trimmed fsutil capture, else "N/A" |
| Probe.SymlinkTargetFromFsutil | index.php:346-351 | when `readlink` fails, the name on fsutil's `Print Name:` line is reported exactly |
| Probe.TrimCarriageReturn | index.php:350 | `trim` removes the carriage return the capture keeps |
| Probe.FolderTarget | index.php:834-846 | "" for a plain folder; for a link, a truthy `readlink` result, else the fsutil capture, else `readlink`'s own answer |
| Probe.TargetsAgree | index.php:343-356 | `getSymlinks` and `getHtdocsFolders` report the same truthy target; a falsy one becomes "N/A" only in `getSymlinks` |
| Probe.CheckSymlink | index.php:394-437 | the four verdicts, each stated as an if-and-only-if over `file_exists`, `is_dir`, `is_file`, `is_link` and `is_junction` |
| Probe.DanglingLinkNotFound | index.php:398-405 | a link whose target is gone is reported not found |
| Probe.LiveLinkFound | index.php:407-430 | a symbolic link to a directory is reported found |
| Batches.QuickCreateBatchPath | index.php:444 | the quick create script is a `.bat` file in the web root |
| Batches.QuickRemoveBatchPath | index.php:547 | the quick remove script is a `.bat` file in the web root |
| Batches.ManualCreateBatchPath | index.php:476 | the manual create script is a `.bat` file in the web root |
| Batches.ManualRemoveBatchPath | index.php:579 | the manual remove script is a `.bat` file in the web root |
| Batches.NatToStringInjective | index.php:444 | different times give different decimal stamps |
| Batches.NameStampInjective | index.php:444 | `<name>_<time>` determines both the name and the time |
| Batches.QuickCreateBatchPathInjective | index.php:444 | two quick create scripts share a path only for the same name and second |
| Batches.QuickRemoveBatchPathInjective | index.php:547 | two quick remove scripts share a path only for the same name and second |
| Batches.CreateAndRemoveBatchesDiffer | index.php:444 | a create script never overwrites a remove script, in both the quick and the manual kind |
| Batches.BatchIsNotDest | index.php:444-445 | a quick script's path is never the link's own path |
| Batches.WriteQuickCreateBatch | index.php:440-469 | the script is written exactly when permitted and `Writable` (the path absent or a plain file, every folder above it present); the path is returned and only that entry changes |
| Batches.WriteQuickRemoveBatch | index.php:543-572 | the same for the quick remove script |
| Batches.WriteManualCreateBatch | index.php:472-540 | the manual script is written exactly when possible; the answer carries its path and the quoted command |
| Batches.WriteManualRemoveBatch | index.php:575-647 | the same for the manual remove script |
| Batches.RunQuickCreateScript | index.php:448-458 | running the script adds the link if the name is free, and deletes the script |
| Batches.RunQuickRemoveScript | index.php:551-561 | running the script removes the link, junction or empty folder at the name, and deletes the script |
| Lifecycle.CreateSymlink | index.php:229-280 | a taken name is refused unchanged; an unwritable script is a failure; otherwise the disk and answer follow the elevation; success exactly when the script ran in time on a free name, and then the link points at the normalised source |
| Lifecycle.AwaitCreate | index.php:250-273 | after launching: the disk per elevation outcome, and "created" only when the link appeared before the probe |
| Lifecycle.RemoveSymlink | index.php:282-329 | the plain `rmdir` path, the elevated path and their answers; a reported success leaves nothing `file_exists` sees; an absent name is reported removed once the script is written |
| Lifecycle.AwaitRemove | index.php:300-325 | after launching: the disk per elevation outcome, success only when the name was gone at the probe |
| Lifecycle.RemoveGoneStaysGone | index.php:312 | a late script cannot bring back a name found gone |
| Lifecycle.CreateOnFreeName | index.php:229-280 | on a free name with everything permitted and the web root present, creating adds exactly the link and leaves no script |
| Lifecycle.RemoveLiveLink | index.php:282-329 | with the web root present, a link to a directory is removed, and only it |
| Lifecycle.CreateThenRemove | index.php:229-437 | create, check and remove on a free name with the web root present: found in between, and the disk ends exactly as it began |
| Ordering.CaseCmp | index.php:182 | the sign of `strcasecmp` |
| Ordering.CaseCmpAntisymmetric | index.php:182 | swapping the names negates `strcasecmp` |
| Ordering.CaseCmpZero | index.php:182 | `strcasecmp` is 0 exactly when the lower-cased names are equal |
| Ordering.CaseCmpTransitive | index.php:182 | `strcasecmp` order is transitive |
| Ordering.KeyCmp | index.php:179-183 | the flagged group sorts first; within a group the order is `strcasecmp` |
| Ordering.KeyCmpAntisymmetric | index.php:866-870 | the comparator is antisymmetric |
| Ordering.KeyCmpTransitive | index.php:866-870 | the comparator is transitive |
| Ordering.InsertPermutes | index.php:179 | inserting adds exactly one item |
| Ordering.InsertSorted | index.php:179 | inserting into a sorted sequence keeps it sorted |
| Ordering.SortSorted | index.php:179-183 | `usort` output is sorted by the comparator |
| Ordering.SortPermutes | index.php:179-183 | `usort` output is a permutation of its input |
| Ordering.SortGroups | index.php:866-870 | sorted output: same multiset and members; no unflagged item before a flagged one; each group in `strcasecmp` order |
| Listing.AfterLastDot | index.php:164 | the text after the last dot: a dot-free suffix preceded by a dot |
| Listing.Extension | index.php:164 | `pathinfo` extension: "" without a dot, else the dot-free suffix after the last dot |
| Listing.MakeItem | index.php:157-173 | a record carries its name and full path; a directory exists and is no file; `has_index` is set exactly for directories and is true only when `index.php` exists; a PHP file has a dot in its name |
| Listing.ItemsOfMembers | index.php:154-176 | the records are exactly one per listed name other than `.` and `..` |
| Listing.CollectItems | index.php:154-176 | the loop builds exactly the records of the listed names |
| Listing.SortedItems | index.php:178-183 | sorted records: directories first, `strcasecmp` within, a permutation of the records |
| Listing.ListDirectory | index.php:126-194 | the error ladder in order; otherwise directories first, names in `strcasecmp` order, every non-dot entry once, and `item_count` equal to the number of items |
| Listing.SymlinkOf | index.php:339-362 | a reported link carries its name, `http://localhost/<name>` and a truthy target: "N/A", or what `readlink` or the fsutil capture gave |
| Listing.SymlinksOfMembers | index.php:336-364 | the reported links are exactly the non-dot entries that are links or junctions, each with its target |
| Listing.GetSymlinks | index.php:331-367 | the loop reports exactly those entries, with URL `http://localhost/<name>` and a truthy target |
| Listing.FoldersOfFails | index.php:860 | once a card fails, the whole listing fails |
| Listing.FoldersOfMembers | index.php:827-863 | the cards are exactly the web root's non-dot directories, each with its own card |
| Listing.CollectFolders | index.php:827-863 | the loop builds exactly those cards, or fails as the listing does |
| Listing.SortedFolders | index.php:865-870 | sorted cards: links first, `strcasecmp` within, a permutation |
| Listing.FolderOf | index.php:832-861 | a card fails exactly for a folder that is not a link or junction and whose listing cannot be read; otherwise it carries its name, path and URL, is a link exactly when `is_link` or `is_junction` holds, and a link says `Symlink` and `symlink` while a folder has an empty target |
| Listing.FoldersAgreeWithSymlinks | index.php:832-846 | `getHtdocsFolders` marks a card as a link exactly when `getSymlinks` (index.php:342-356) lists that name, a truthy card target is the target `getSymlinks` reports, and every listed link that is a directory has a card |
| Listing.GetHtdocsFolders | index.php:822-873 | fails exactly when a card fails; otherwise links first, names in `strcasecmp` order, every directory once with its own card |
| FileOps.DropSlashes | index.php:770 | removing trailing separators gives a prefix that does not end in one |
| FileOps.LastPart | index.php:770 | the separator-free tail of a path |
| FileOps.Basename | index.php:770 | `basename` has no separator |
| FileOps.Dirname | index.php:774 | `dirname` is a prefix of the path, or "." |
| FileOps.JoinSplitsBack | index.php:770-774 | `basename` and `dirname` of `dir\name` are `name` and `dir` |
| FileOps.WithExtension | index.php:651-654 | the name gains `.txt` exactly when it has no dot; the result always has one |
| FileOps.CreateFile | index.php:650-668 | an existing name is refused; otherwise created exactly when permitted and the folder it goes in exists (`Writable`); the new path is then a file and nothing else changes |
| FileOps.CreateDirectory | index.php:196-208 | an existing name is refused with the disk unchanged; otherwise created exactly when `mkdir` may create it; on success the new state is `MakeDirs` of the old one, and on failure the disk is unchanged |
| FileOps.RenameFile | index.php:762-795 | the five-step check ladder in order; past it, success exactly when permitted, the destination is absent and does not lie inside the source; success moves the subtree to the new path (`Moved`), returns it with its basename, and leaves the old path absent unless it lies inside the new one |
| Browser.Collapse | index.php:2375 | `replace(/\\+/g, '\\')` leaves no run of backslashes and keeps lower case |
| Browser.CollapseNoRuns | index.php:2375 | collapsing a string without runs changes nothing |
| Browser.NormalizeLinkPath | index.php:2375-2382 | a normalised path is lower case, has only backslashes, no runs, and no outer whitespace |
| Browser.NormalizeIdempotent | index.php:2375-2385 | normalising twice is normalising once |
| Browser.NormalizeIgnoresCaseAndSlashes | index.php:2375-2385 | the comparison ignores ASCII case and the kind of slash |
| Browser.FirstLinkToNone | index.php:2378-2389 | "not linked" exactly when no link has a matching usable target |
| Browser.FirstLinkToFirst | index.php:2378-2388 | the answer is the name of the first matching link |
| Browser.IsSymlinked | index.php:2368-2390 | the loop returns the first link whose target, normalised, equals the normalised path |
| Browser.NavigateUp | index.php:2904-2911 | up only when the path has a `\`; the parent joined with the last piece is the path |
| Browser.NavigateUpToParent | index.php:2904-2911 | from `dir\name` it goes to `dir` |
| Browser.EscapeAsWritten | index.php:2924 | the escape as written doubles backslashes only |
| Browser.EscapeJs | index.php:2924 | the corrected escape prefixes backslashes and quotes |
| Browser.EscapeJsRoundTrip | index.php:2924-2929 | the corrected literal reads back as the path, for any path without line breaks |
| Browser.EscapesAgreeWithoutQuote | index.php:2924 | without a quote the two escapes agree |
| Browser.EscapeAsWrittenBreaksOnQuote | index.php:2924-2929 | as written, any path with a quote gives a literal that does not read back |
| Browser.EscapeAsWrittenExample | index.php:2924-2929 | the folder `C:\xampp\htdocs\O'Brien` breaks the link |
| Browser.UpdateBreadcrumb | index.php:2914-2934 | the loop builds exactly the breadcrumb as written: one entry per piece, each link escaped by doubling backslashes only |
| Browser.BreadcrumbAsWrittenAgrees | index.php:2914-2934 | for a path without a quote, the breadcrumb as written equals the corrected one |
| Browser.BreadcrumbAsWrittenLinks | index.php:2914-2934 | as written, for a path without quotes or line breaks, every link reads back as the path up to and including its piece |
| Browser.BreadcrumbAsWrittenBreaks | index.php:2924-2929 | as written, a link whose prefix holds a quote does not read back |
| Browser.BreadcrumbLinks | index.php:2914-2934 | corrected breadcrumb: each entry's caption is its piece; all but the last link to the path so far, which is a prefix of the path |
| Browser.CrumbLinkReadsBack | index.php:2919-2928 | corrected breadcrumb: the link of entry `i` reads back as the first `i + 1` pieces joined, a prefix of the path |
| Browser.BreadcrumbEndsAtPath | index.php:2915-2921 | all pieces joined are the whole path |
| Browser.ObjectLookup | index.php:2359-2364 | an own entry gives its class list; otherwise only inherited member names give a truthy value |
| Browser.FileExt | index.php:2207 | the lower-cased text after the last dot has no upper case and no dot |
| Browser.FileExtOfDotless | index.php:2207 | a name without a dot is its own extension, lower-cased |
| Browser.FileIconAsWritten | index.php:2202-2365 | as written: folders get the folder icon and the result is always truthy |
| Browser.ExtensionIcon | index.php:2209-2333 | the `iconMap` lookup by own key: no key is an inherited member name, and `DS_Store` has its entry |
| Browser.WebFileIcon | index.php:2210-2222 | the web-file entries; no key is an inherited member name |
| Browser.LanguageIcon | index.php:2224-2242 | the programming-language entries; no key is an inherited member name |
| Browser.DatabaseIcon | index.php:2244-2247 | the database entries; no key is an inherited member name |
| Browser.ConfigIcon | index.php:2249-2261 | the configuration-file entries; no key is an inherited member name |
| Browser.DocumentIcon | index.php:2263-2273 | the documentation entries; no key is an inherited member name |
| Browser.ImageIcon | index.php:2275-2285 | the image entries; no key is an inherited member name |
| Browser.VideoIcon | index.php:2287-2294 | the video entries; no key is an inherited member name |
| Browser.AudioIcon | index.php:2296-2302 | the audio entries; no key is an inherited member name |
| Browser.ArchiveIcon | index.php:2304-2310 | the archive entries; no key is an inherited member name |
| Browser.ExecutableIcon | index.php:2312-2317 | the executable entries; no key is an inherited member name |
| Browser.FontIcon | index.php:2319-2324 | the font entries; no key is an inherited member name |
| Browser.OtherIcon | index.php:2326-2332 | the remaining entries, `DS_Store` among them; no key is an inherited member name |
| Browser.SpecialFileIcon | index.php:2336-2356 | the `specialFiles` lookup by own key: no key is an inherited member name |
| Browser.CorrectedExtensionIcon | index.php:2209-2333 | the extension table with the `DS_Store` entry under `ds_store`, otherwise unchanged |
| Browser.FileIcon | index.php:2202-2365 | the folder icon for directories, the special-name entry first, then the extension entry, otherwise the default icon |
| Browser.DsStoreKeyUnreachable | index.php:2207-2332 | no lower-cased extension equals `DS_Store` |
| Browser.ExtensionIconReachable | index.php:2359-2364 | with the corrected table, every lower-case, dot-free key is reachable as `stem.key` |
| Browser.ExtensionOfDotted | index.php:2207 | the extension of `stem.ext` is `ext` lower-cased |
| Browser.DsStoreAsWritten | index.php:2207-2364 | as written, `.DS_Store` gets the default icon |
| Browser.DsStoreCorrected | index.php:2207-2364 | corrected, `.DS_Store` gets the icon the table names |
| Browser.PrototypeNameAsWritten | index.php:2359-2360 | as written, a file named `toString` (or any inherited member) gets that built-in as its icon |
| Browser.AsWrittenAgrees | index.php:2202-2365 | away from those cases, the code as written and the corrected lookup give the same class list |

## Left out

- The AJAX dispatcher, JSON encoding and the HTML/CSS/JavaScript user interface are not modelled. The operations are modelled one by one.
- `openExplorer`, `deleteItem`, `createReposFolder`, `readFile`/`saveFile` (with the 5 MiB limit) and `formatFileSize` are not modelled. They sit outside the link and listing core.
- Process execution (`exec`, `shell_exec`, `popen`, PowerShell's `Start-Process -Verb RunAs`) is modelled only by its effect. Answers come from the `Host` oracles and the `Elevation` input.
- `sleep`, `usleep` and `clearstatcache` are not modelled. Every probe reads the disk as it is at that moment.
- Batch script text, `@echo`, `timeout` and `pause` are not modelled. Only a quick script's effect is: the link made or removed, then the self-delete.
- The manual scripts are written but never run in the model, because the user runs them by hand.
- Concurrency between requests and the user is not modelled.
- Windows' case-insensitive file names, `..` resolution and drive-letter handling in `dirname` are not modelled.
- A link is followed only when it is the last path component.
- Writing through a dangling link is not modelled.
- Lower-casing covers ASCII letters only. PHP's `strtolower` and JavaScript's `toLowerCase` fold more.
- File size, modification time and `date()` formatting in `listDirectory` are not modelled.
- The `Error: ` answer for an exception in `listDirectory` is not modelled.
- `Listing.FolderOf`: a folder `scandir` cannot read makes PHP 8 throw a TypeError from `count(false)`. This ends the request, so it is modelled as a failed listing (`None`).
- HTML entity decoding of the `onclick` attribute and the markup around breadcrumb captions are not modelled. The entries are modelled as data.
- Disk.Volume.Rmdir: a `Link` entry does not record whether it is a file or a directory symbolic link, so a plain `rmdir` is modelled as removing any link, while cmd's `rmdir` refuses a file symbolic link; the project only ever creates directory links (`mklink /D`).
- Browser.ExtensionIcon: its contract does not state that every key other than `DS_Store` is lower case and dot-free; proving that over the literal keys costs more than the proof budget allows. `Browser.DsStoreKeyUnreachable` covers the one key the lookup can never reach.
- Browser.ExtensionIconReachable: proved for every lower-case, dot-free key given as an argument, not enumerated over the table's literal keys.

## Findings

| source | as written | input that shows it | evidently intended | confidence | as-written member | corrected member |
|---|---|---|---|---|---|---|
| index.php:2924 | only backslashes are escaped before the path goes into `navigateTo('…')` | a folder `C:\xampp\htdocs\O'Brien`: the quote ends the literal early | quotes escaped too, so every breadcrumb link navigates to its folder | not executed | Browser.EscapeAsWrittenBreaksOnQuote | Browser.EscapeJsRoundTrip |
| index.php:2359-2364 | the tables are plain object literals, so inherited members satisfy the lookup | a file named `toString` gets the built-in function as its icon class | only the tables' own keys are used | not executed | Browser.PrototypeNameAsWritten | Browser.FileIcon |
| index.php:2207-2332 | the key `DS_Store` is looked up with an extension that was lower-cased | a file named `.DS_Store` gets the default icon | the `DS_Store` entry is used for `.DS_Store` | not executed | Browser.DsStoreAsWritten | Browser.DsStoreCorrected |
