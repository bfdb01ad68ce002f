# BotBot checker core, in Dafny

BotBot checks a shared directory tree for files that break the group's
conventions. Its `Checker` (botbot/checker.py) holds three things:
- a set of registered checks;
- a checklist, built by walking the tree with a work-list;
- a problem list of (file, problem code) pairs.

It also keeps two counters: files checked (`cfiles`) and files located
(`files`). The ignore file (botbot/ignore.py) gives the exact paths the walk
skips, one per line, after `#` comments and surrounding whitespace are
removed.

Each Dafny file matches one part of the program:
- `wrappers.dfy`: `Option`.
- `filetree.dfy`: the filesystem as a finite tree. It answers the only
  questions the checker asks:
  - can a FileInfo be built for a path;
  - does `is_link` hold for it;
  - is it a directory;
  - what does `os.listdir` return for it.

  It also holds `os.path.join` and the termination measure of the walk.
- `problems.dfy`: problem codes, and the mapping from a caught `OSError` to
  its code, following Python's errno-to-exception-class rules and the order
  of the `except` clauses.
- `ignore.dfy`: `strip_comments`, as a function with its properties, and
  `parse_ignore_rules`, as a method with a loop.
- `traversal.dfy`: the specification of the `while to_add` loop.
  - `Next` is one pass.
  - `Run` is the loop run to its end: what it appends to the checklist and
    the problem list, and how it stops.
  - `Visit` is an independent structural description of a depth-first walk.
  - The lemmas tie the loop to the walk: completeness, what may enter the
    checklist, error charging, and the irrelevance of `link` on link-free
    trees.
- `progress.dfy`: the fill arithmetic and the bar text of `write_status`.
- `checker.dfy`: the `Checker` class. Its methods update the checks,
  checklist, problem-list and counter fields in place. Each is proved
  against the functions of `traversal.dfy`.

Quirks of the source that the model keeps:
- `check_all` does not pass `link` on, so the walk it starts never follows
  links.
- With `link` true, a link's own path goes back on the work-list, and the
  loop repeats that state for ever. The model stops at that point with
  `Spins`. This includes a dangling link, because the model takes a FileInfo
  to succeed or fail the same way whatever `link` is (see "## Left out").
- When building a FileInfo raises, the handler reports against the last
  FileInfo that was built successfully. After several such failures in a
  row, they are all charged to the same older file
  (`Traversal.FailureChargedToLastBuilt`).
- When the very first candidate fails, `apath` is unbound, and the call
  aborts (`NoFileInfo`).
- An error in the root listing propagates (`RootListingFailed`).
- `check_all` on a root that is a symlink to a directory checks nothing.
  Every path below such a root has differing absolute and real paths, so
  `is_link` holds for it and it is skipped
  (`Traversal.SymlinkedRootFindsNothing`).
- Nothing is reset between scans. A second `check_all` re-checks the old
  checklist, so more files are checked than located
  (`Checker.CheckAllTwice`). The status bar is drawn only when `check_all`
  is called with `verbose` true; that bar would then run past its length.

## Model

| member | source | states |
|---|---|---|
| Checker.Checker.constructor | botbot/checker.py:23-32 | A new checker has no checks, an empty checklist, no problems and both counters at zero. |
| Checker.Checker.Register | botbot/checker.py:34-43 | A callable is added to the check set; an iterable adds each of its items. Registering checks already present leaves the set unchanged. |
| Checker.Checker.BuildChecklist | botbot/checker.py:45-81 | For a tree that follows the root-encoding rule (`FileTree.RootEncoded`): if the root listing fails, the error propagates and nothing changes. Otherwise the checklist and problem list grow by exactly what `Run` on the root's entries appends, and the result says how the loop stopped. `files` becomes the checklist's length only when the loop finishes. |
| Checker.Checker.Drain | botbot/checker.py:52-77 | The `while to_add` loop, started from the root's entries with no FileInfo built yet, appends what `Run` says and stops as `Run` says. |
| Checker.Checker.Pass | botbot/checker.py:53-77 | One pass pops the last candidate and leaves the work-list, the last FileInfo, the checklist and the problem list as `Next` says, or halts as `Next` says with nothing appended. |
| Checker.Checker.CheckFile | botbot/checker.py:92-102 | Every registered check runs once, in some enumeration of the set. Exactly the returned codes are appended, each paired with the file, and `cfiles` rises by one. No other field changes. |
| Checker.Checker.RunChecks | botbot/checker.py:97-100 | Running the checks in a given order appends their reports in that order. |
| Checker.Checker.CheckOne | botbot/checker.py:98-100 | One check appends a problem exactly when it returns a code, and that problem is charged to the checked file. |
| Checker.Iterate | botbot/checker.py:97 | The order the set is iterated in lists each registered check exactly once. |
| Checker.EnumeratesOnce | botbot/checker.py:97 | An enumeration of the check set has the set's size, holds exactly its checks and repeats none. |
| Checker.ReportsMembers | botbot/checker.py:97-100 | At most one report per check; every report names the checked file; a code is reported exactly when some check returns it. |
| Checker.ReportsIndependentOfOrder | botbot/checker.py:97-100 | Whatever order the set is iterated in, the recorded problems are the same up to order. |
| Checker.ReportsPermutation | botbot/checker.py:97-100 | Permuting the checks permutes the recorded problems. |
| Checker.Checker.CheckAll | botbot/checker.py:83-90 | The walk never follows links. On a root listing failure, nothing changes. When the walk finishes, every FileInfo on the checklist, older ones included, is checked once in checklist order, `files` equals the checklist's length, and `cfiles` rises by that length. When the walk does not finish, no file is checked and `files` keeps its old value. |
| Checker.Checker.CheckList | botbot/checker.py:87-88 | Checking each checklist entry in turn appends each file's reports in checklist order and raises `cfiles` by the checklist's length. |
| Checker.CheckAllTwice | botbot/checker.py:83-106 | On a fresh checker and an unchanged tree, a second `check_all` appends the files again and checks the earlier ones once more. Then `cfiles` is 3n while `files` is 2n, so the 40-cell bar, drawn when `verbose` is true, would be longer than 40 cells. |
| Traversal.Classify | botbot/checker.py:53-77 | Each candidate gets exactly one outcome, decided in the source's order: FileInfo failure, ignore list, `is_link`, directory test, file. Ignored paths and links are never expanded or appended. |
| Traversal.Next | botbot/checker.py:52-77 | A pass that continues strictly lowers the total weight of the pending subtrees; this is termination when links are not followed. A pass that continues leaves a FileInfo in `apath`. A pass aborts for want of a FileInfo exactly when none was built and the candidate fails. A pass spins only when links are followed. |
| Traversal.Run | botbot/checker.py:52-77 | The loop spins only when links are followed. It aborts for want of a FileInfo exactly when the very first candidate fails before any FileInfo was built. |
| Traversal.NextRecordsAtMostOne | botbot/checker.py:52-77 | A pass appends at most one file or records at most one problem, never both. |
| Traversal.NextKeepsBuilt | botbot/checker.py:54 | `apath` only ever holds a FileInfo that was built successfully. |
| Traversal.FailureChargedToLastBuilt | botbot/checker.py:54-77 | When the candidate's FileInfo fails, the call aborts if no FileInfo was built yet. Otherwise one problem is recorded against the last FileInfo built, never against the failing candidate's own FileInfo, and `apath` keeps that older FileInfo. The charged file's path is not proved to differ from the failing path. |
| Traversal.RunOverLinksFindsNothing | botbot/checker.py:58-62 | A work-list of links and failing paths puts nothing on the checklist, whether links are followed or not. |
| Traversal.SymlinkedRootFindsNothing | botbot/checker.py:131-133 | A root that is a symlink to a directory yields an empty checklist, because `is_link` holds for every path below it. |
| Traversal.Step | botbot/checker.py:53-77 | With links not followed, and a FileInfo available to charge, each pass continues. It appends the first files the walk meets and charges the first failures the walk meets. |
| Traversal.RunVisits | botbot/checker.py:52-77 | Once a FileInfo exists (or the next one can be built), no error stops the loop. It appends exactly the walk's files in walk order, and records one problem per failure, with the failure's code. |
| Traversal.RunFromRoot | botbot/checker.py:50-77 | From the root listing, the loop aborts exactly when the last root entry cannot be given a FileInfo. Otherwise it finishes with exactly the walk's files and one problem per failure. |
| Traversal.RunFindsOnlyFiles | botbot/checker.py:55-67 | Whether or not links are followed, everything appended is a plain file (not a link, not a directory) whose path is not ignored. |
| Traversal.NextBelowRoot | botbot/checker.py:50-67 | Every pending path stays strictly below the root, and so does every appended file. |
| Traversal.RunBelowRoot | botbot/checker.py:50-67 | The root itself never enters the checklist; everything found lies strictly below it. |
| Traversal.EntriesBelow | botbot/checker.py:64 | The joined entries of a directory at or below the root lie strictly below the root. |
| Traversal.CleanRun | botbot/checker.py:50-67 | On an error-free, link-free tree with no ignores, the loop records no problem and finishes. Its checklist holds every file below the root exactly once, in reverse listing order. |
| Traversal.CleanVisit | botbot/checker.py:52-67 | On a clean subtree, the walk meets no failure and finds the subtree's files in reverse listing order. |
| Traversal.RunLinkIrrelevant | botbot/checker.py:58-62 | On a work-list with no links below it, following links or not gives the same run, so the `link` that `check_all` drops only matters when a link is reachable. |
| Traversal.VisitPendingAppend | botbot/checker.py:52-65 | Extending the work-list puts the new entries' walk ahead of the old entries' walk (last in, first out). |
| Traversal.VisitPendingEntries | botbot/checker.py:64-65 | Walking a directory's joined entries from the work-list is walking its children. |
| Problems.ProblemFor | botbot/checker.py:69-77 | ENOENT gives `PROB_BROKEN_LINK`, EPERM/EACCES give `PROB_DIR_NOT_WRITABLE`, every other errno gives `PROB_UNKNOWN_ERROR`, with the more specific handlers first. |
| FileTree.Join | botbot/checker.py:64 | `os.path.join` of a directory and a listed name gives a path that strictly extends the directory and ends in the name. |
| FileTree.ListDir | botbot/checker.py:50 | `os.listdir` succeeds on a non-link exactly when it is a readable directory, giving its children; on a file it fails with ENOTDIR. |
| FileTree.Entries | botbot/checker.py:50 | The joined paths of a listing hold one entry per listed name. |
| FileTree.EntriesAt | botbot/checker.py:50 | The i-th entry is the i-th listed name joined to the directory, with its node. |
| FileTree.PendingWeightAppend | botbot/checker.py:65 | The weight of an extended work-list is the sum of the parts. |
| FileTree.EntriesWeight | botbot/checker.py:64 | A directory's entries weigh what its children weigh, one less than the directory. |
| Progress.FillLength | botbot/checker.py:110-113 | The fill is the least whole number of cells covering `done/total` of the bar. |
| Progress.FillLengthUnique | botbot/checker.py:113 | Only one whole number satisfies the ceiling inequalities. |
| Progress.FillWithinBar | botbot/checker.py:110-113 | While no more files are checked than located, the fill stays within the bar. |
| Progress.FillEmptyAtStart | botbot/checker.py:110-113 | Nothing checked gives an empty fill. |
| Progress.FillFullAtEnd | botbot/checker.py:110-113 | All files checked gives a full fill. |
| Progress.FillMonotone | botbot/checker.py:110-113 | Checking more files never shrinks the fill. |
| Progress.FillOverflows | botbot/checker.py:110-113 | More files checked than located gives a fill longer than the bar. |
| Progress.Repeat | botbot/checker.py:115 | `k * c` is `k` copies of `c`, or nothing when `k` is not positive. |
| Progress.StatusBar | botbot/checker.py:110-115 | The bar text is `filllen` marks then dashes. It is None when nothing was located (ZeroDivisionError). When the fill runs past the bar, it is longer than the bar. |
| Progress.StatusBarLength | botbot/checker.py:115 | While no more files are checked than located, the bar text is exactly `barlen` characters. |
| Progress.StatusBarFull | botbot/checker.py:115 | With every file checked, the bar is all marks. |
| Ignore.StripComments | botbot/ignore.py:20-21 | A rule never contains `#` and never starts or ends with whitespace. |
| Ignore.StripCommentsIsStrippedPrefix | botbot/ignore.py:20-21 | A rule is the stripped prefix of its line before the first `#`. |
| Ignore.StripCommentsNoHash | botbot/ignore.py:20-21 | A line without `#` becomes its stripped self. |
| Ignore.StripCommentsBlank | botbot/ignore.py:20-21 | A blank line, or one whose first non-whitespace character is `#`, gives the empty rule. |
| Ignore.StripCommentsIdempotent | botbot/ignore.py:20-21 | Stripping comments twice equals stripping once. |
| Ignore.BeforeHashSpec | botbot/ignore.py:21 | `split('#')[0]` is a `#`-free prefix ending at the first `#`. |
| Ignore.BeforeFirstHash | botbot/ignore.py:21 | `split('#')[0]` is pinned down by the position of the first `#`. |
| Ignore.StripSpec | botbot/ignore.py:21 | `strip()` returns the slice between the leading and trailing whitespace, with no whitespace at either end. |
| Ignore.TrimStartSpec | botbot/ignore.py:21 | `lstrip()` removes exactly the leading whitespace. |
| Ignore.TrimEndSpec | botbot/ignore.py:21 | `rstrip()` removes exactly the trailing whitespace. |
| Ignore.StripNoEdgeSpace | botbot/ignore.py:21 | Stripping a string with no edge whitespace changes nothing. |
| Ignore.StripAllSpace | botbot/ignore.py:21 | A string of whitespace strips to the empty string. |
| Ignore.Rules | botbot/ignore.py:12-18 | The rule list has one rule per line, or none without a file. Every rule is free of `#` and of edge whitespace. |
| Ignore.ParseIgnoreRules | botbot/ignore.py:12-18 | No file gives no rules. Otherwise there is one rule per line, in file order, with rule i the stripped-comment form of line i; blank rules are kept. |
| Ignore.UnmatchablePaths | botbot/ignore.py:12-21 | No rule can exclude a path containing `#` or with whitespace at either end, because rules are compared with paths by exact equality. |

## Left out

- `find_ignore_file` (botbot/ignore.py:6-10): the ignore file is a parameter, given as its lines or None.
- Checker.Checker.BuildChecklist, Checker.Checker.CheckAll: `RootEncoded(top)` states the tree encoding for a symlinked root: every entry below it is a Link, or cannot be given a FileInfo. The model does not derive this from path strings, because `abspath` and `realpath` are not modelled.
- Traversal.Classify: whether a node's FileInfo can be built is the same for both `link` values, although the source passes `link` to `fi.FileInfo` (botbot/checker.py:54) and fileinfo.py is not part of this model. A dangling link with `link` true is therefore modelled as re-queued and spinning. A FileInfo that follows links would instead raise FileNotFoundError, record one `PROB_BROKEN_LINK` and go on. `check_all` never follows links, so its behaviour is unaffected.
- Filesystem calls (`os.listdir`, `os.path.join` on non-POSIX systems, `os.lstat`, `os.path.islink/abspath/realpath`) are queries on a static tree. A node `Link` stands for every path for which `is_link` holds, including paths below a symlinked ancestor. Changes to the tree during a scan are not modelled.
- The FileInfo object (fileinfo.py is not part of this model): it is the path with the node found there. FileInfo may fail to build (a node `Unstatable`). Its hashing, mode bits and path normalisation are not modelled; the ignore test compares the path as popped.
- The `os.lstat` call inside the FileNotFoundError handler (botbot/checker.py:70) always returns a value when it does not raise, so the model always records the problem. A second error raised by that `lstat` is not modelled.
- Traversal.Run: with `link` true, the source loops for ever once it re-appends a link's path. The model stops at that point with `Spins` instead of diverging.
- Checks that raise an exception are not modelled: a check is a total function from FileInfo to an optional code.
- The problem list (problist.py is not part of this model) is an append-only log of (file, code) pairs; any de-duplication or grouping it does is not modelled.
- Checker.CheckFile: the `status` argument and the call to `write_status` (printing to stdout) are left out. The bar itself is modelled by `Progress.StatusBar`.
- `print_summary`, the report writer, the "Located n files" message, `status['starttime']` and elapsed time: output and clock only.
- Progress.FillLength: uses the exact integer ceiling of `done * barlen / total`. The source computes `math.ceil(done / total * barlen)` in floating point, which can differ by one at boundaries where rounding errs upward. The `{:.0%}` percentage text is not modelled.
- botbot/botbot.py (command-line wiring) and tests/test_fileinfo.py (FileInfo hashing) are outside the model.
