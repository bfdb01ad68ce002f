/**
  The `Checker` class of botbot/checker.py: a set of registered checks, the
  checklist built by walking a directory tree, the problem list, and the
  `cfiles`/`files` counters of `status`.

  A check is any value of type `C`; `run(c, f)` is what calling check `c`
  on the FileInfo `f` returns (None, or a problem code). The directory
  being scanned is given as the node the filesystem holds at `path`, and
  the ignore file (found by `find_ignore_file`, not part of this model) as
  its lines.
 */
module Checker {
  import opened Wrappers
  import opened FileTree
  import opened Problems
  import opened Ignore
  import opened Traversal
  import opened Progress

  /** What `register` is given: a callable, or an iterable of callables. */
  datatype Registrant<C(==)> = Callable(check: C) | Iterable(items: seq<C>)
  {
    /** The checks it stands for. */
    function Elements(): set<C>
    {
      match this
      case Callable(c) => {c}
      case Iterable(cs) => set c | c in cs
    }
  }

  /**
    How `build_checklist` ends: the root listing (outside the `try`) raised
    and the call propagated it, or the walk loop ended as `stop` says.
   */
  datatype BuildResult = RootListingFailed(error: OsError) | Walked(stop: Stop)

  /** `order` lists every check of `cs` exactly once: one iteration over the set. */
  predicate Enumerates<C(==)>(order: seq<C>, cs: set<C>)
  {
    multiset(order) == multiset(cs)
  }

  /** An enumeration has the set's size, holds exactly its checks, and repeats none. */
  lemma EnumeratesOnce<C>(order: seq<C>, cs: set<C>)
    requires Enumerates(order, cs)
    ensures |order| == |cs|
    ensures forall c :: c in order <==> c in cs
    ensures forall i, j :: 0 <= i < j < |order| ==> order[i] != order[j]
  {
    assert |multiset(order)| == |order| && |multiset(cs)| == |cs|;
    forall c
      ensures c in order <==> c in cs
    {
      assert c in order <==> c in multiset(order);
    }
    forall i, j | 0 <= i < j < |order|
      ensures order[i] != order[j]
    {
      var x, y := order[j], order[i];
      assert order == order[..j] + [x] + order[j + 1..];
      assert multiset(order)[x] == multiset(order[..j])[x] + 1 + multiset(order[j + 1..])[x];
      assert y in order[..j];
      assert multiset(cs)[x] <= 1;
    }
  }

  /** Listing one more check, not yet listed, enumerates the set with it added. */
  lemma EnumeratesAdd<C>(order: seq<C>, cs: set<C>, c: C)
    requires Enumerates(order, cs) && c !in cs
    ensures Enumerates(order + [c], cs + {c})
  {
    assert multiset(cs + {c}) == multiset(cs) + multiset{c};
  }

  /** The problems recorded when the checks in `order` run on `f`, one per check returning a code. */
  function Reports<C>(run: (C, FileInfo) -> Option<ProblemCode>, order: seq<C>, f: FileInfo): seq<Problem>
  {
    if order == [] then []
    else
      var c := order[|order| - 1];
      Reports(run, order[..|order| - 1], f) + (if run(c, f).Some? then [Problem(f, run(c, f).value)] else [])
  }

  /**
    Iterating over a set (`for check in self.checks`): every element once,
    in an order the model leaves open, as Python's set order is.
   */
  method Iterate<C>(cs: set<C>) returns (order: seq<C>)
    ensures Enumerates(order, cs)
  {
    var remaining := cs;
    order := [];
    while remaining != {}
      invariant remaining <= cs
      invariant Enumerates(order, cs - remaining)
      decreases |remaining|
    {
      var c :| c in remaining;
      EnumeratesAdd(order, cs - remaining, c);
      assert cs - remaining + {c} == cs - (remaining - {c});
      order := order + [c];
      remaining := remaining - {c};
    }
    assert cs - remaining == cs;
  }

  /** Running one more check adds its report, if any, at the end. */
  lemma ReportsSnoc<C>(run: (C, FileInfo) -> Option<ProblemCode>, order: seq<C>, c: C, f: FileInfo)
    ensures Reports(run, order + [c], f) == Reports(run, order, f) + (if run(c, f).Some? then [Problem(f, run(c, f).value)] else [])
  {
    assert (order + [c])[..|order|] == order;
  }

  /**
    A check's report is recorded exactly when it returns a code, always with
    the checked file, and at most one report per check.
   */
  lemma {:induction false} ReportsMembers<C>(run: (C, FileInfo) -> Option<ProblemCode>, order: seq<C>, f: FileInfo)
    ensures |Reports(run, order, f)| <= |order|
    ensures forall p <- Reports(run, order, f) :: p.file == f
    ensures forall code :: Problem(f, code) in Reports(run, order, f) <==> exists c <- order :: run(c, f) == Some(code)
    decreases |order|
  {
    if order != [] {
      var init, c := order[..|order| - 1], order[|order| - 1];
      ReportsMembers(run, init, f);
      assert order == init + [c];
      forall code | exists d <- order :: run(d, f) == Some(code)
        ensures Problem(f, code) in Reports(run, order, f)
      {
        var d :| d in order && run(d, f) == Some(code);
        if d != c {
          assert d in init;
        }
      }
    }
  }

  lemma {:induction false} ReportsAppend<C>(run: (C, FileInfo) -> Option<ProblemCode>, a: seq<C>, b: seq<C>, f: FileInfo)
    ensures Reports(run, a + b, f) == Reports(run, a, f) + Reports(run, b, f)
    decreases |b|
  {
    if b == [] {
      assert a + b == a;
    } else {
      assert (a + b)[..|a + b| - 1] == a + b[..|b| - 1];
      ReportsAppend(run, a, b[..|b| - 1], f);
    }
  }

  /** Taking one check out of an order takes its report, if any, out of the recorded problems. */
  lemma ReportsRemove<C>(run: (C, FileInfo) -> Option<ProblemCode>, a: seq<C>, c: C, b: seq<C>, f: FileInfo)
    ensures multiset(Reports(run, a + [c] + b, f)) == multiset(Reports(run, a + b, f)) + multiset(Reports(run, [c], f))
  {
    ReportsAppend(run, a, [c], f);
    ReportsAppend(run, a + [c], b, f);
    ReportsAppend(run, a, b, f);
    var ra, rb, rc := Reports(run, a, f), Reports(run, b, f), Reports(run, [c], f);
    assert multiset(ra + rc + rb) == multiset(ra) + multiset(rc) + multiset(rb) by {
      assert multiset(ra + rc + rb) == multiset(ra + rc) + multiset(rb);
    }
  }

  lemma MultisetRemove<C>(init: seq<C>, a: seq<C>, c: C, b: seq<C>)
    requires multiset(init + [c]) == multiset(a + [c] + b)
    ensures multiset(init) == multiset(a + b)
  {
    calc {
      multiset(init);
      multiset(init + [c]) - multiset{c};
      multiset(a + [c] + b) - multiset{c};
      { assert multiset(a + [c] + b) == multiset(a) + multiset{c} + multiset(b); }
      multiset(a) + multiset(b);
      multiset(a + b);
    }
  }

  /** Running the same checks in another order records the same problems, up to order. */
  lemma {:induction false} ReportsPermutation<C>(run: (C, FileInfo) -> Option<ProblemCode>, o1: seq<C>, o2: seq<C>, f: FileInfo)
    requires multiset(o1) == multiset(o2)
    ensures multiset(Reports(run, o1, f)) == multiset(Reports(run, o2, f))
    decreases |o1|
  {
    if o1 != [] {
      var c := o1[|o1| - 1];
      var init := o1[..|o1| - 1];
      assert c in multiset(o2) by { assert o1 == init + [c]; }
      var k :| 0 <= k < |o2| && o2[k] == c;
      var a, b := o2[..k], o2[k + 1..];
      assert o1 == init + [c] && o2 == a + [c] + b;
      MultisetRemove(init, a, c, b);
      ReportsPermutation(run, init, a + b, f);
      ReportsAppend(run, init, [c], f);
      ReportsRemove(run, a, c, b, f);
    }
  }

  /**
    The problems `check_file` records do not depend on the order in which it
    iterates over the set of checks.
   */
  lemma ReportsIndependentOfOrder<C>(run: (C, FileInfo) -> Option<ProblemCode>, cs: set<C>, o1: seq<C>, o2: seq<C>, f: FileInfo)
    requires Enumerates(o1, cs) && Enumerates(o2, cs)
    ensures multiset(Reports(run, o1, f)) == multiset(Reports(run, o2, f))
  {
    ReportsPermutation(run, o1, o2, f);
  }

  /** The problems recorded by checking each file of `files` in turn, the `i`-th with checks in `orders[i]`. */
  function AllReports<C>(run: (C, FileInfo) -> Option<ProblemCode>, orders: seq<seq<C>>, files: seq<FileInfo>): seq<Problem>
    requires |orders| == |files|
  {
    if files == [] then []
    else
      var k := |files| - 1;
      AllReports(run, orders[..k], files[..k]) + Reports(run, orders[k], files[k])
  }

  /** Checking the next file of `files` adds its reports at the end. */
  lemma AllReportsNext<C>(run: (C, FileInfo) -> Option<ProblemCode>, orders: seq<seq<C>>, files: seq<FileInfo>, o: seq<C>)
    requires |orders| < |files|
    ensures var k := |orders|;
      AllReports(run, orders + [o], files[..k + 1]) == AllReports(run, orders, files[..k]) + Reports(run, o, files[k])
  {
    var k := |orders|;
    assert (orders + [o])[..k] == orders;
    assert files[..k + 1][..k] == files[..k];
  }

  /** Concatenation regrouped, for the loop invariants that append in two steps. */
  lemma Regroup<T>(a: seq<T>, b: seq<T>, c: seq<T>)
    ensures a + (b + c) == (a + b) + c
  {
  }

  class Checker<C(==)> {
    /** Calling a check on a FileInfo. */
    const run: (C, FileInfo) -> Option<ProblemCode>
    /** `self.checks`. */
    var checks: set<C>
    /** `self.checklist`. */
    var checklist: seq<FileInfo>
    /** `self.probs`, as an append-only log. */
    var probs: seq<Problem>
    /** `self.status['cfiles']`: files checked. */
    var cfiles: nat
    /** `self.status['files']`: files located by the last completed walk. */
    var files: nat

    /** `Checker.__init__` (botbot/checker.py:23-32). */
    constructor(run: (C, FileInfo) -> Option<ProblemCode>)
      ensures this.run == run
      ensures checks == {} && checklist == [] && probs == [] && cfiles == 0 && files == 0
    {
      this.run := run;
      checks := {};
      checklist := [];
      probs := [];
      cfiles := 0;
      files := 0;
    }

    /**
      `register` (botbot/checker.py:34-43): a callable is added to the set,
      an iterable has each of its items added. Registering checks that are
      already there changes nothing.
     */
    method Register(r: Registrant<C>)
      modifies this
      ensures checks == old(checks) + r.Elements()
      ensures r.Elements() <= old(checks) ==> checks == old(checks)
      ensures checklist == old(checklist) && probs == old(probs)
      ensures cfiles == old(cfiles) && files == old(files)
    {
      match r
      case Callable(c) =>
        checks := checks + {c};
      case Iterable(items) =>
        var i := 0;
        while i < |items|
          invariant i <= |items|
          invariant checks == old(checks) + set j | 0 <= j < i :: items[j]
          invariant checklist == old(checklist) && probs == old(probs)
          invariant cfiles == old(cfiles) && files == old(files)
        {
          checks := checks + {items[i]};
          i := i + 1;
        }
        assert (set j | 0 <= j < |items| :: items[j]) == r.Elements() by {
          forall c <- r.Elements()
            ensures c in set j | 0 <= j < |items| :: items[j]
          {
            var j :| 0 <= j < |items| && items[j] == c;
          }
        }
    }

    /**
      `build_checklist(path, link)` (botbot/checker.py:45-81), on the tree
      `top` found at `path`. The root is listed outside the loop, so a
      failure there propagates and nothing changes. Otherwise the loop pops
      candidates from the end of `to_add` and, one at a time, skips it,
      expands it, appends it to the checklist, or records one problem; what
      it appends and records is the one the specification `Run` describes.
      `status['files']` is set only when the loop ends: it is not reached
      when the first FileInfo cannot be built (the handler then raises) or
      when a followed link makes the loop repeat the same state for ever.
     */
    method BuildChecklist(path: string, top: Node, ignoreFile: Option<seq<string>>, link: bool) returns (result: BuildResult)
      requires RootEncoded(top)
      modifies this`checklist, this`probs, this`files
      ensures ListDir(top).ListFailed? ==>
        && result == RootListingFailed(ListDir(top).error)
        && checklist == old(checklist) && probs == old(probs) && files == old(files)
      ensures ListDir(top).Listed? ==>
        var d := Run(Scan(Entries(path, ListDir(top).children), None), Rules(ignoreFile), link);
        && result == Walked(d.stop)
        && checklist == old(checklist) + d.found
        && probs == old(probs) + d.probs
        && files == if d.stop == Finished then |checklist| else old(files)
    {
      var rules := ParseIgnoreRules(ignoreFile);
      var top_listing := ListDir(top);
      if top_listing.ListFailed? {
        return RootListingFailed(top_listing.error);
      }
      var stop := Drain(Entries(path, top_listing.children), rules, link);
      if stop == Finished {
        files := |checklist|;
      }
      return Walked(stop);
    }

    /**
      The `while to_add` loop of `build_checklist` (botbot/checker.py:52-77),
      from the root's entries and no FileInfo built yet: it appends to the
      checklist and to the problem list what `Run` says, and ends as `Run`
      says.
     */
    method Drain(toAdd: seq<Entry>, rules: seq<string>, link: bool) returns (stop: Stop)
      modifies this`checklist, this`probs
      ensures var d := Run(Scan(toAdd, None), rules, link);
        && stop == d.stop
        && checklist == old(checklist) + d.found
        && probs == old(probs) + d.probs
    {
      var pending := toAdd;
      var apath: Option<FileInfo> := None;
      ghost var d := Run(Scan(pending, apath), rules, link);
      stop := Finished;
      while pending != []
        invariant var r := Run(Scan(pending, apath), rules, link);
          && old(checklist) + d.found == checklist + r.found
          && old(probs) + d.probs == probs + r.probs
          && r.stop == d.stop
        invariant stop == Finished
        decreases PendingWeight(pending)
      {
        ghost var s, found1, probs1 := Scan(pending, apath), checklist, probs;
        pending, apath, stop := Pass(pending, apath, rules, link);
        if stop != Finished {
          RunHalts(s, rules, link);
          break;
        }
        RunContinues(s, rules, link);
        ghost var m, r := Next(s, rules, link), Run(Scan(pending, apath), rules, link);
        Regroup(found1, m.found, r.found);
        Regroup(probs1, m.probs, r.probs);
      }
    }

    /**
      One pass of the `while to_add` loop (botbot/checker.py:52-77): the
      last entry is popped from the work-list and handled; the pass does
      what `Next` says, on the work-list, the last FileInfo and the fields.
     */
    method Pass(toAdd: seq<Entry>, apath: Option<FileInfo>, rules: seq<string>, link: bool)
      returns (toAdd': seq<Entry>, apath': Option<FileInfo>, stop: Stop)
      requires toAdd != []
      modifies this`checklist, this`probs
      ensures var m := Next(Scan(toAdd, apath), rules, link);
        if stop == Finished then
          && m.Continue? && m.next == Scan(toAdd', apath')
          && checklist == old(checklist) + m.found && probs == old(probs) + m.probs
        else
          m == Halt(stop) && checklist == old(checklist) && probs == old(probs)
    {
      var e := toAdd[|toAdd| - 1];
      toAdd' := toAdd[..|toAdd| - 1];
      apath' := apath;
      stop := Finished;
      var fi := FileInfo(e.path, e.node);
      NextByOutcome(Scan(toAdd, apath), rules, link);
      match Classify(e, rules, link) {
        case Fail(err, false) =>
          // `fi.FileInfo` raised: the handler reports against the previous `apath`
          if apath.None? {
            stop := NoFileInfo;
          } else {
            probs := probs + [Problem(apath.value, ProblemFor(err))];
          }
        case Skip =>
          apath' := Some(fi);
        case Requeue =>
          // the link's own path goes back on the work-list: the next pass is this one again
          apath' := Some(fi);
          toAdd' := toAdd' + [Entry(fi.path, e.node)];
          stop := Spins;
        case Expand(es) =>
          apath' := Some(fi);
          toAdd' := toAdd' + es;
        case Fail(err, true) =>
          apath' := Some(fi);
          probs := probs + [Problem(fi, ProblemFor(err))];
        case Append(f) =>
          apath' := Some(fi);
          checklist := checklist + [f];
      }
    }

    /**
      `check_file(finfo)` (botbot/checker.py:92-106): every registered check
      runs once on `finfo`, in the set's iteration order `order`; each code
      returned is recorded against `finfo`, and `cfiles` goes up by one.
     */
    method CheckFile(finfo: FileInfo) returns (ghost order: seq<C>)
      modifies this`probs, this`cfiles
      ensures Enumerates(order, checks)
      ensures probs == old(probs) + Reports(run, order, finfo)
      ensures cfiles == old(cfiles) + 1
    {
      var checksInOrder := Iterate(checks);
      order := checksInOrder;
      RunChecks(checksInOrder, finfo);
      cfiles := cfiles + 1;
    }

    /** The `for check in self.checks` loop (botbot/checker.py:97-100), over the iteration order `order`. */
    method RunChecks(order: seq<C>, finfo: FileInfo)
      modifies this`probs
      ensures probs == old(probs) + Reports(run, order, finfo)
    {
      var i := 0;
      while i < |order|
        invariant i <= |order|
        invariant probs == old(probs) + Reports(run, order[..i], finfo)
      {
        CheckOne(order[i], finfo);
        ReportsSnoc(run, order[..i], order[i], finfo);
        assert order[..i + 1] == order[..i] + [order[i]];
        i := i + 1;
      }
      assert order[..i] == order;
    }

    /** One check called on `finfo` (botbot/checker.py:98-100): a returned code is recorded against `finfo`. */
    method CheckOne(c: C, finfo: FileInfo)
      modifies this`probs
      ensures probs == old(probs) + if run(c, finfo).Some? then [Problem(finfo, run(c, finfo).value)] else []
    {
      var prob := run(c, finfo);
      if prob.Some? {
        probs := probs + [Problem(finfo, prob.value)];
      }
    }

    /**
      `check_all(path, link)` (botbot/checker.py:83-90). The `link` argument
      is not passed on, so the walk never follows links. When the walk ends
      normally, every FileInfo on the checklist is checked, including those
      left from earlier scans, so `cfiles` rises by the checklist's length,
      which is also the new `files`.
     */
    method CheckAll(path: string, top: Node, ignoreFile: Option<seq<string>>, link: bool)
      returns (result: BuildResult, ghost orders: seq<seq<C>>)
      requires RootEncoded(top)
      modifies this`checklist, this`probs, this`cfiles, this`files
      ensures ListDir(top).ListFailed? ==>
        && result == RootListingFailed(ListDir(top).error)
        && checklist == old(checklist) && probs == old(probs) && cfiles == old(cfiles) && files == old(files)
      ensures ListDir(top).Listed? ==>
        var d := Run(Scan(Entries(path, ListDir(top).children), None), Rules(ignoreFile), false);
        && result == Walked(d.stop)
        && checklist == old(checklist) + d.found
        && (d.stop != Finished ==> probs == old(probs) + d.probs && cfiles == old(cfiles) && files == old(files))
        && (d.stop == Finished ==>
              && |orders| == |checklist|
              && (forall i :: 0 <= i < |orders| ==> Enumerates(orders[i], checks))
              && probs == old(probs) + d.probs + AllReports(run, orders, checklist)
              && files == |checklist|
              && cfiles == old(cfiles) + files)
    {
      result := BuildChecklist(path, top, ignoreFile, false);
      orders := [];
      if result == Walked(Finished) {
        orders := CheckList();
      }
    }

    /**
      The `for finfo in self.checklist` loop of `check_all`
      (botbot/checker.py:87-88): each file on the checklist is checked in
      turn, the `i`-th with its checks in the order `orders[i]`.
     */
    method CheckList() returns (ghost orders: seq<seq<C>>)
      modifies this`probs, this`cfiles
      ensures |orders| == |checklist|
      ensures forall i :: 0 <= i < |orders| ==> Enumerates(orders[i], checks)
      ensures probs == old(probs) + AllReports(run, orders, checklist)
      ensures cfiles == old(cfiles) + |checklist|
    {
      orders := [];
      var i := 0;
      while i < |checklist|
        invariant i <= |checklist| && |orders| == i
        invariant forall k :: 0 <= k < i ==> Enumerates(orders[k], checks)
        invariant probs == old(probs) + AllReports(run, orders, checklist[..i])
        invariant cfiles == old(cfiles) + i
      {
        ghost var order := CheckFile(checklist[i]);
        AllReportsNext(run, orders, checklist, order);
        orders := orders + [order];
        i := i + 1;
      }
      assert checklist[..i] == checklist;
    }
  }

  /**
    Nothing is reset between scans: on a fresh checker, a second `check_all`
    of the same unchanged tree appends the files again and checks the
    earlier ones once more, so the files checked outnumber the files
    located. The 40-cell status bar, which `check_file` draws only when
    `check_all` is called with `verbose` true (botbot/checker.py:88,
    105-106), would then run past its length.
   */
  method CheckAllTwice<C(==)>(run: (C, FileInfo) -> Option<ProblemCode>, path: string, top: Node, ignoreFile: Option<seq<string>>)
    returns (c: Checker<C>)
    requires RootEncoded(top) && ListDir(top).Listed?
    requires var d := Run(Scan(Entries(path, ListDir(top).children), None), Rules(ignoreFile), false);
      d.stop == Finished && d.found != []
    ensures var d := Run(Scan(Entries(path, ListDir(top).children), None), Rules(ignoreFile), false);
      && c.checklist == d.found + d.found
      && c.files == 2 * |d.found|
      && c.cfiles == 3 * |d.found|
    ensures StatusBar(c.cfiles, c.files, 40).Some? && |StatusBar(c.cfiles, c.files, 40).value| > 40
  {
    ghost var d := Run(Scan(Entries(path, ListDir(top).children), None), Rules(ignoreFile), false);
    c := new Checker(run);
    var r1, o1 := c.CheckAll(path, top, ignoreFile, false);
    assert c.checklist == d.found && c.files == |d.found| && c.cfiles == |d.found|;
    var r2, o2 := c.CheckAll(path, top, ignoreFile, false);
    assert c.checklist == d.found + d.found;
    FillOverflows(c.cfiles, c.files, 40);
  }
}
