/**
  The work-list walk of `Checker.build_checklist` (botbot/checker.py:45-81),
  as a specification.

  `Run` is the loop itself, one step per popped candidate; `Visit` is an
  independent, structural description of what a depth-first walk that does
  not follow links finds below a node. The lemmas connect the two and state
  what the walk puts on the checklist and into the problem list.
 */
module Traversal {
  import opened Wrappers
  import opened FileTree
  import opened Problems

  /** What the loop body does with one popped candidate. */
  datatype Outcome =
    | Skip                              // ignored, or a link that is not followed
    | Expand(entries: seq<Entry>)       // a directory: its entries join the work-list
    | Append(file: FileInfo)            // a file: it joins the checklist
    | Fail(error: OsError, here: bool)  // an OSError; `here` is false when building the FileInfo raised
    | Requeue                           // a followed link: its own path is pushed back

  /**
    The branch taken for candidate `e` (botbot/checker.py:53-77). Every
    candidate has exactly one outcome, decided in the source's order: a
    failing FileInfo first, then the ignore list, then `is_link`, then the
    directory test; only what is neither ignored nor a link is expanded or
    appended.
   */
  function Classify(e: Entry, ignore: seq<string>, link: bool): (o: Outcome)
    ensures o.Fail? && !o.here <==> e.node.Unstatable?
    ensures o.Skip? <==> !e.node.Unstatable? && (e.path in ignore || (e.node.Link? && !link))
    ensures o.Requeue? <==> e.node.Link? && e.path !in ignore && link
    ensures o.Expand? <==> e.node.Dir? && e.path !in ignore
    ensures o.Fail? && o.here <==> e.node.Unlistable? && e.path !in ignore
    ensures o.Append? <==> e.node.File? && e.path !in ignore
    ensures o.Append? ==> o.file == FileInfo(e.path, e.node)
    ensures o.Expand? ==> o.entries == Entries(e.path, e.node.children)
    ensures o.Fail? ==> o.error == if o.here then e.node.listError else e.node.statError
  {
    if e.node.Unstatable? then Fail(e.node.statError, false)
    else if e.path in ignore then Skip
    else if e.node.Link? then (if link then Requeue else Skip)
    else if IsDir(e.node) then
      match ListDir(e.node)
      case Listed(cs) => Expand(Entries(e.path, cs))
      case ListFailed(err) => Fail(err, true)
    else Append(FileInfo(e.path, e.node))
  }

  /**
    How the loop ends: the work-list ran empty; a followed link was pushed
    back, after which the source repeats the same step forever; or building
    the very first FileInfo raised, so the handler's use of `apath` raises
    UnboundLocalError and the call aborts.
   */
  datatype Stop = Finished | Spins | NoFileInfo

  /** The loop's state between passes: `to_add` and `apath` (the last FileInfo built). */
  datatype Scan = Scan(pending: seq<Entry>, last: Option<FileInfo>)

  /** What the loop appends to the checklist and to the problem list, and how it ends. */
  datatype Result = Result(found: seq<FileInfo>, probs: seq<Problem>, stop: Stop)

  /**
    What one pass does: the state it leaves, with what it appended to the
    checklist and to the problem list; or why the loop stops.
   */
  datatype Move = Continue(next: Scan, found: seq<FileInfo>, probs: seq<Problem>) | Halt(stop: Stop)

  /** One pass of the loop body (botbot/checker.py:53-77) on a non-empty work-list. */
  function Next(s: Scan, ignore: seq<string>, link: bool): (m: Move)
    requires s.pending != []
    ensures m.Continue? ==> PendingWeight(m.next.pending) < PendingWeight(s.pending)
    ensures m.Continue? ==> m.next.last.Some?
    ensures m == Halt(NoFileInfo) <==> s.last.None? && s.pending[|s.pending| - 1].node.Unstatable?
    ensures m == Halt(Spins) ==> link
    ensures m.Halt? ==> m.stop != Finished
  {
    var e := s.pending[|s.pending| - 1];
    var rest := s.pending[..|s.pending| - 1];
    var fi := FileInfo(e.path, e.node);
    match Classify(e, ignore, link)
    case Skip => Continue(Scan(rest, Some(fi)), [], [])
    case Expand(es) =>
      PendingWeightAppend(rest, es);
      EntriesWeight(e.path, e.node.children);
      Continue(Scan(rest + es, Some(fi)), [], [])
    case Append(f) => Continue(Scan(rest, Some(fi)), [f], [])
    case Fail(err, here) =>
      if here then Continue(Scan(rest, Some(fi)), [], [Problem(fi, ProblemFor(err))])
      else if s.last.None? then Halt(NoFileInfo)
      else Continue(Scan(rest, s.last), [], [Problem(s.last.value, ProblemFor(err))])
    case Requeue => Halt(Spins)
  }

  /**
    The `while len(to_add) > 0` loop, run to its end from `s`. It spins only
    when links are followed, and aborts for want of a FileInfo only when the
    very first candidate fails, before any FileInfo was built.
   */
  function Run(s: Scan, ignore: seq<string>, link: bool): (r: Result)
    ensures r.stop == Spins ==> link
    ensures r.stop == NoFileInfo <==> s.last.None? && s.pending != [] && s.pending[|s.pending| - 1].node.Unstatable?
    decreases PendingWeight(s.pending)
  {
    if s.pending == [] then Result([], [], Finished)
    else
      match Next(s, ignore, link)
      case Continue(s', found, probs) =>
        var r := Run(s', ignore, link);
        Result(found + r.found, probs + r.probs, r.stop)
      case Halt(stop) => Result([], [], stop)
  }

  /**
    A filesystem error met by the walk. `at` is the FileInfo the problem
    belongs to when the listing of a directory failed; it is None when
    building the FileInfo itself failed, in which case the source charges the
    problem to whatever FileInfo was built last.
   */
  datatype Failure = Failure(error: OsError, at: Option<FileInfo>)

  /** The files and the failures a walk meets, each in the order it meets them. */
  datatype Walk = Walk(found: seq<FileInfo>, failures: seq<Failure>)
  {
    function Then(w: Walk): Walk
    {
      Walk(found + w.found, failures + w.failures)
    }
  }

  /**
    What a walk that does not follow links meets at `path`: nothing below an
    ignored path or a link, the files, and one failure per path whose
    FileInfo or listing fails. Entries of a directory are visited last
    first, as popping from the end of the work-list does.
   */
  function Visit(path: string, n: Node, ignore: seq<string>): Walk
    decreases n, 1
  {
    if n.Unstatable? then Walk([], [Failure(n.statError, None)])
    else if path in ignore || n.Link? then Walk([], [])
    else if n.File? then Walk([FileInfo(path, n)], [])
    else if n.Unlistable? then Walk([], [Failure(n.listError, Some(FileInfo(path, n)))])
    else VisitChildren(path, n.children, ignore)
  }

  function VisitChildren(dir: string, cs: seq<Child>, ignore: seq<string>): Walk
    decreases cs, 0
  {
    if cs == [] then Walk([], [])
    else
      var c := cs[|cs| - 1];
      Visit(Join(dir, c.name), c.node, ignore).Then(VisitChildren(dir, cs[..|cs| - 1], ignore))
  }

  /** What the walk meets from a work-list, its last entry first. */
  function VisitPending(es: seq<Entry>, ignore: seq<string>): Walk
  {
    if es == [] then Walk([], [])
    else
      var e := es[|es| - 1];
      Visit(e.path, e.node, ignore).Then(VisitPending(es[..|es| - 1], ignore))
  }

  /** Problems `ps` record failures `fs`, one each and in order, with the code and file each calls for. */
  predicate Charged(ps: seq<Problem>, fs: seq<Failure>)
  {
    |ps| == |fs| &&
    forall i :: 0 <= i < |ps| ==>
      ps[i].code == ProblemFor(fs[i].error) && (fs[i].at.Some? ==> ps[i].file == fs[i].at.value)
  }

  lemma ChargedAppend(ps: seq<Problem>, fs: seq<Failure>, qs: seq<Problem>, gs: seq<Failure>)
    requires Charged(ps, fs) && Charged(qs, gs)
    ensures Charged(ps + qs, fs + gs)
  {
    forall i | |ps| <= i < |ps| + |qs|
      ensures (ps + qs)[i].code == ProblemFor((fs + gs)[i].error)
      ensures (fs + gs)[i].at.Some? ==> (ps + qs)[i].file == (fs + gs)[i].at.value
    {
      assert (ps + qs)[i] == qs[i - |ps|];
      assert (fs + gs)[i] == gs[i - |fs|];
    }
  }

  lemma {:induction false} VisitPendingAppend(a: seq<Entry>, b: seq<Entry>, ignore: seq<string>)
    ensures VisitPending(a + b, ignore) == VisitPending(b, ignore).Then(VisitPending(a, ignore))
    decreases |b|
  {
    if b == [] {
      assert a + b == a;
    } else {
      var e := b[|b| - 1];
      var b' := b[..|b| - 1];
      var v := Visit(e.path, e.node, ignore);
      assert (a + b)[..|a + b| - 1] == a + b' && (a + b)[|a + b| - 1] == e;
      calc {
        VisitPending(a + b, ignore);
        v.Then(VisitPending(a + b', ignore));
        { VisitPendingAppend(a, b', ignore); }
        v.Then(VisitPending(b', ignore).Then(VisitPending(a, ignore)));
        v.Then(VisitPending(b', ignore)).Then(VisitPending(a, ignore));
        VisitPending(b, ignore).Then(VisitPending(a, ignore));
      }
    }
  }

  lemma {:induction false} VisitPendingEntries(dir: string, cs: seq<Child>, ignore: seq<string>)
    ensures VisitPending(Entries(dir, cs), ignore) == VisitChildren(dir, cs, ignore)
    decreases |cs|
  {
    if cs != [] {
      assert Entries(dir, cs)[..|cs| - 1] == Entries(dir, cs[..|cs| - 1]);
      VisitPendingEntries(dir, cs[..|cs| - 1], ignore);
    }
  }

  /**
    One pass of the loop body with links not followed, seen from the walk:
    what it appends to the checklist is what the walk finds first, and the
    problems it records are charged for the failures `fs` the walk meets first.
   */
  lemma Step(s: Scan, ignore: seq<string>) returns (fs: seq<Failure>)
    requires s.pending != []
    requires s.last.Some? || !s.pending[|s.pending| - 1].node.Unstatable?
    ensures var m := Next(s, ignore, false);
      && m.Continue? && m.next.last.Some?
      && VisitPending(s.pending, ignore).found == m.found + VisitPending(m.next.pending, ignore).found
      && VisitPending(s.pending, ignore).failures == fs + VisitPending(m.next.pending, ignore).failures
      && Charged(m.probs, fs)
  {
    var e := s.pending[|s.pending| - 1];
    var rest := s.pending[..|s.pending| - 1];
    var v := Visit(e.path, e.node, ignore);
    assert VisitPending(s.pending, ignore) == v.Then(VisitPending(rest, ignore));
    NextByOutcome(s, ignore, false);
    var o := Classify(e, ignore, false);
    fs := [];
    if o.Expand? {
      VisitPendingAppend(rest, o.entries, ignore);
      VisitPendingEntries(e.path, e.node.children, ignore);
      assert v == VisitChildren(e.path, e.node.children, ignore);
    } else if o.Fail? {
      fs := v.failures;
    } else if o.Skip? {
      assert v == Walk([], []);
    } else {
      assert v == Walk([o.file], []);
    }
  }

  /**
    The pass of `Next`, by the outcome of the candidate popped: the state it
    moves to and what it appends, or why it halts.
   */
  lemma NextByOutcome(s: Scan, ignore: seq<string>, link: bool)
    requires s.pending != []
    ensures
      var e := s.pending[|s.pending| - 1];
      var rest := s.pending[..|s.pending| - 1];
      var fi := FileInfo(e.path, e.node);
      var m := Next(s, ignore, link);
      match Classify(e, ignore, link)
      case Skip => m == Continue(Scan(rest, Some(fi)), [], [])
      case Expand(es) => m == Continue(Scan(rest + es, Some(fi)), [], [])
      case Append(f) => m == Continue(Scan(rest, Some(fi)), [f], [])
      case Fail(err, here) =>
        if here then m == Continue(Scan(rest, Some(fi)), [], [Problem(fi, ProblemFor(err))])
        else if s.last.None? then m == Halt(NoFileInfo)
        else m == Continue(Scan(rest, s.last), [], [Problem(s.last.value, ProblemFor(err))])
      case Requeue => m == Halt(Spins)
  {
  }

  /** A pass that halts ends the loop with nothing more appended. */
  lemma RunHalts(s: Scan, ignore: seq<string>, link: bool)
    requires s.pending != [] && Next(s, ignore, link).Halt?
    ensures Run(s, ignore, link) == Result([], [], Next(s, ignore, link).stop)
  {
  }

  /** A pass that continues appends its own records ahead of those of the rest of the loop. */
  lemma RunContinues(s: Scan, ignore: seq<string>, link: bool)
    requires s.pending != [] && Next(s, ignore, link).Continue?
    ensures var m := Next(s, ignore, link);
      var r := Run(m.next, ignore, link);
      Run(s, ignore, link) == Result(m.found + r.found, m.probs + r.probs, r.stop)
  {
  }

  /**
    Once some FileInfo has been built (or the next candidate's can be), the
    loop with links not followed runs to the end: it appends exactly the
    files the walk finds, in the walk's order, and records exactly one
    problem per failure the walk meets, with the failure's code.
   */
  lemma {:induction false} RunVisits(s: Scan, ignore: seq<string>)
    requires s.last.Some? || s.pending == [] || !s.pending[|s.pending| - 1].node.Unstatable?
    ensures Run(s, ignore, false).stop == Finished
    ensures Run(s, ignore, false).found == VisitPending(s.pending, ignore).found
    ensures Charged(Run(s, ignore, false).probs, VisitPending(s.pending, ignore).failures)
    decreases PendingWeight(s.pending)
  {
    if s.pending != [] {
      var fs := Step(s, ignore);
      var m := Next(s, ignore, false);
      RunVisits(m.next, ignore);
      ChargedAppend(m.probs, fs, Run(m.next, ignore, false).probs, VisitPending(m.next.pending, ignore).failures);
    }
  }

  /**
    `build_checklist` after the root listing `cs` (botbot/checker.py:50-77),
    with links not followed: it aborts exactly when the first candidate
    popped (the last root entry) cannot be given a FileInfo; otherwise no
    error stops it, and it appends exactly the files the walk from the root
    finds and records one problem per failure the walk meets.
   */
  lemma RunFromRoot(root: string, cs: seq<Child>, ignore: seq<string>)
    ensures var r := Run(Scan(Entries(root, cs), None), ignore, false);
      && (r.stop == NoFileInfo <==> cs != [] && cs[|cs| - 1].node.Unstatable?)
      && (r.stop != NoFileInfo ==>
            && r.stop == Finished
            && r.found == VisitChildren(root, cs, ignore).found
            && Charged(r.probs, VisitChildren(root, cs, ignore).failures))
  {
    var es := Entries(root, cs);
    VisitPendingEntries(root, cs, ignore);
    if cs != [] && cs[|cs| - 1].node.Unstatable? {
      assert Next(Scan(es, None), ignore, false) == Halt(NoFileInfo);
    } else {
      RunVisits(Scan(es, None), ignore);
    }
  }

  /** A FileInfo the checklist may hold: a plain file (neither a link nor a directory) whose path is not ignored. */
  predicate Checkable(f: FileInfo, ignore: seq<string>)
  {
    f.node.File? && f.path !in ignore
  }

  /**
    Whether links are followed or not, the loop only ever appends checkable
    files (botbot/checker.py:55-67).
   */
  lemma {:induction false} RunFindsOnlyFiles(s: Scan, ignore: seq<string>, link: bool)
    ensures forall f <- Run(s, ignore, link).found :: Checkable(f, ignore)
    decreases PendingWeight(s.pending)
  {
    if s.pending != [] && Next(s, ignore, link).Continue? {
      var m := Next(s, ignore, link);
      RunFindsOnlyFiles(m.next, ignore, link);
      assert forall f <- m.found :: Checkable(f, ignore);
    }
  }

  /**
    One pass records at most one thing: it appends at most one file or
    records at most one problem, never both, and never takes anything back.
   */
  lemma NextRecordsAtMostOne(s: Scan, ignore: seq<string>, link: bool)
    requires s.pending != []
    ensures Next(s, ignore, link).Continue? ==>
      |Next(s, ignore, link).found| + |Next(s, ignore, link).probs| <= 1
  {
  }

  /** `apath`, when it holds anything, holds a FileInfo that was built: one whose node does not fail to build. */
  predicate Built(last: Option<FileInfo>)
  {
    last.None? || !last.value.node.Unstatable?
  }

  /** Every pass leaves in `apath` a FileInfo that was built. */
  lemma NextKeepsBuilt(s: Scan, ignore: seq<string>, link: bool)
    requires s.pending != [] && Built(s.last)
    ensures Next(s, ignore, link).Continue? ==> Built(Next(s, ignore, link).next.last)
  {
  }

  /**
    When building the popped candidate's FileInfo raises
    (botbot/checker.py:54), the handler (botbot/checker.py:69-77) records the
    one problem against the last FileInfo that was built, and that FileInfo
    stays the last one: a run of such failures is charged to the same older
    file, never to a FileInfo of the failing candidate itself (its path may
    still coincide with the failing path when a listing repeats a name).
    With no FileInfo built yet, the call aborts.
   */
  lemma FailureChargedToLastBuilt(s: Scan, ignore: seq<string>, link: bool)
    requires s.pending != [] && s.pending[|s.pending| - 1].node.Unstatable?
    ensures var e := s.pending[|s.pending| - 1];
      var m := Next(s, ignore, link);
      && (m.Halt? <==> s.last.None?)
      && (m.Continue? ==>
            && m.found == []
            && m.probs == [Problem(s.last.value, ProblemFor(e.node.statError))]
            && m.next == Scan(s.pending[..|s.pending| - 1], s.last)
            && (Built(s.last) ==> m.probs[0].file != FileInfo(e.path, e.node)))
  {
  }

  /** Every waiting path is one `is_link` holds for, or one whose FileInfo cannot be built. */
  predicate LinksOrFailing(es: seq<Entry>)
  {
    forall e <- es :: e.node.Link? || e.node.Unstatable?
  }

  /** A work-list of links and failing paths puts nothing on the checklist, links followed or not. */
  lemma {:induction false} RunOverLinksFindsNothing(s: Scan, ignore: seq<string>, link: bool)
    requires LinksOrFailing(s.pending)
    ensures Run(s, ignore, link).found == []
    decreases PendingWeight(s.pending)
  {
    if s.pending != [] && Next(s, ignore, link).Continue? {
      var rest := s.pending[..|s.pending| - 1];
      assert s.pending[|s.pending| - 1] in s.pending;
      assert forall x <- rest :: x in s.pending;
      assert Next(s, ignore, link).next.pending == rest;
      RunOverLinksFindsNothing(Next(s, ignore, link).next, ignore, link);
    }
  }

  /**
    `build_checklist` on a root that is a symlink to a directory, or lies
    below one, checks nothing: every path below it has differing absolute
    and real paths, so `is_link` holds for it (botbot/checker.py:58-62, 133).
   */
  lemma SymlinkedRootFindsNothing(root: string, top: Node, ignore: seq<string>, link: bool)
    requires top.Link? && ListDir(top).Listed? && RootEncoded(top)
    ensures Run(Scan(Entries(root, ListDir(top).children), None), ignore, link).found == []
  {
    var cs := ListDir(top).children;
    var es := Entries(root, cs);
    EntriesAt(root, cs);
    forall x <- es
      ensures x.node.Link? || x.node.Unstatable?
    {
      var i :| 0 <= i < |es| && es[i] == x;
    }
    RunOverLinksFindsNothing(Scan(es, None), ignore, link);
  }

  /** Every path waiting lies strictly below `root`, and the waiting subtrees are well named. */
  predicate BelowRoot(s: Scan, root: string)
  {
    forall e <- s.pending :: root < e.path && WellNamed(e.node)
  }

  lemma PrefixTrans(a: string, b: string, c: string)
    requires a < b && b < c
    ensures a < c
  {
    assert c[..|b|][..|a|] == c[..|a|];
  }

  /** `BelowRoot` holds after every pass, and what a pass appends lies below `root`. */
  lemma NextBelowRoot(s: Scan, root: string, ignore: seq<string>, link: bool)
    requires s.pending != [] && BelowRoot(s, root)
    ensures var m := Next(s, ignore, link);
      m.Continue? ==> BelowRoot(m.next, root) && forall f <- m.found :: root < f.path
  {
    var e := s.pending[|s.pending| - 1];
    var rest := s.pending[..|s.pending| - 1];
    assert e in s.pending;
    assert BelowRoot(Scan(rest, None), root) by {
      assert forall x <- rest :: x in s.pending;
    }
    var o := Classify(e, ignore, link);
    if o.Expand? {
      var es := Entries(e.path, e.node.children);
      EntriesBelow(root, e.path, e.node.children);
      assert forall x <- rest + es :: x in rest || x in es;
    }
  }

  /**
    The root itself never joins the checklist: whatever the loop finds from
    the root's listing lies strictly below the root (botbot/checker.py:50, 67).
   */
  lemma {:induction false} RunBelowRoot(s: Scan, root: string, ignore: seq<string>, link: bool)
    requires BelowRoot(s, root)
    ensures forall f <- Run(s, ignore, link).found :: root < f.path
    decreases PendingWeight(s.pending)
  {
    if s.pending != [] {
      NextBelowRoot(s, root, ignore, link);
      if Next(s, ignore, link).Continue? {
        RunBelowRoot(Next(s, ignore, link).next, root, ignore, link);
      }
    }
  }

  /** The entries of a directory at or below `root` lie strictly below `root`. */
  lemma EntriesBelow(root: string, dir: string, cs: seq<Child>)
    requires root <= dir
    requires forall i :: 0 <= i < |cs| ==> IsEntryName(cs[i].name) && WellNamed(cs[i].node)
    ensures BelowRoot(Scan(Entries(dir, cs), None), root)
  {
    var es := Entries(dir, cs);
    EntriesAt(dir, cs);
    forall x <- es
      ensures root < x.path && WellNamed(x.node)
    {
      var i :| 0 <= i < |es| && es[i] == x;
      if root < dir {
        PrefixTrans(root, dir, x.path);
      }
    }
  }

  /** A tree with no errors, no links, whose every directory lists. */
  predicate Clean(n: Node)
  {
    match n
    case File => true
    case Dir(cs) => forall i :: 0 <= i < |cs| ==> Clean(cs[i].node)
    case _ => false
  }

  /** The files at or below `path`, in listing order (a reference enumeration, independent of the loop). */
  function Leaves(path: string, n: Node): seq<FileInfo>
    decreases n, 1
  {
    match n
    case File => [FileInfo(path, n)]
    case Dir(cs) => LeavesIn(path, cs)
    case _ => []
  }

  function LeavesIn(dir: string, cs: seq<Child>): seq<FileInfo>
    decreases cs, 0
  {
    if cs == [] then []
    else
      var c := cs[|cs| - 1];
      LeavesIn(dir, cs[..|cs| - 1]) + Leaves(Join(dir, c.name), c.node)
  }

  function Reversed<T>(s: seq<T>): seq<T>
  {
    if s == [] then [] else [s[|s| - 1]] + Reversed(s[..|s| - 1])
  }

  lemma {:induction false} ReversedAppend<T>(a: seq<T>, b: seq<T>)
    ensures Reversed(a + b) == Reversed(b) + Reversed(a)
    decreases |b|
  {
    if b == [] {
      assert a + b == a;
    } else {
      assert (a + b)[..|a + b| - 1] == a + b[..|b| - 1];
      ReversedAppend(a, b[..|b| - 1]);
    }
  }

  lemma {:induction false} ReversedMultiset<T>(s: seq<T>)
    ensures multiset(Reversed(s)) == multiset(s)
    decreases |s|
  {
    if s != [] {
      ReversedMultiset(s[..|s| - 1]);
      assert s == s[..|s| - 1] + [s[|s| - 1]];
    }
  }

  /**
    On a clean tree with nothing ignored, the walk meets no failure and finds
    every file below `path` exactly once, in reverse listing order.
   */
  lemma {:induction false} CleanVisit(path: string, n: Node)
    requires Clean(n)
    ensures Visit(path, n, []) == Walk(Reversed(Leaves(path, n)), [])
    decreases n, 1
  {
    if n.Dir? {
      CleanVisitChildren(path, n.children);
    }
  }

  lemma {:induction false} CleanVisitChildren(dir: string, cs: seq<Child>)
    requires forall i :: 0 <= i < |cs| ==> Clean(cs[i].node)
    ensures VisitChildren(dir, cs, []) == Walk(Reversed(LeavesIn(dir, cs)), [])
    decreases cs, 0
  {
    if cs != [] {
      var c := cs[|cs| - 1];
      CleanVisit(Join(dir, c.name), c.node);
      CleanVisitChildren(dir, cs[..|cs| - 1]);
      ReversedAppend(LeavesIn(dir, cs[..|cs| - 1]), Leaves(Join(dir, c.name), c.node));
    }
  }

  /**
    Completeness (botbot/checker.py:50-67): on a clean tree with an empty
    ignore list, the loop records no problem, ends normally, and its
    checklist holds every file below the root exactly once (as a multiset,
    the files in listing order), in reverse listing order.
   */
  lemma CleanRun(root: string, cs: seq<Child>)
    requires forall i :: 0 <= i < |cs| ==> Clean(cs[i].node)
    ensures var r := Run(Scan(Entries(root, cs), None), [], false);
      && r == Result(Reversed(LeavesIn(root, cs)), [], Finished)
      && multiset(r.found) == multiset(LeavesIn(root, cs))
  {
    RunFromRoot(root, cs, []);
    CleanVisitChildren(root, cs);
    ReversedMultiset(LeavesIn(root, cs));
  }

  /** No path for which `is_link` holds anywhere at or below `n`. */
  predicate LinkFree(n: Node)
  {
    match n
    case Dir(cs) => forall i :: 0 <= i < |cs| ==> LinkFree(cs[i].node)
    case Link(_) => false
    case _ => true
  }

  /**
    On a work-list with no links below it, following links or not makes no
    difference, so the `link` argument that `check_all` drops
    (botbot/checker.py:85) only matters when a link is reachable.
   */
  lemma {:induction false} RunLinkIrrelevant(s: Scan, ignore: seq<string>)
    requires forall e <- s.pending :: LinkFree(e.node)
    ensures Run(s, ignore, true) == Run(s, ignore, false)
    decreases PendingWeight(s.pending)
  {
    if s.pending != [] {
      var e := s.pending[|s.pending| - 1];
      assert e in s.pending;
      assert Classify(e, ignore, true) == Classify(e, ignore, false);
      if Next(s, ignore, false).Continue? {
        var rest := s.pending[..|s.pending| - 1];
        assert forall x <- rest :: x in s.pending;
        if e.node.Dir? && e.path !in ignore {
          var es := Entries(e.path, e.node.children);
          EntriesAt(e.path, e.node.children);
          assert forall x <- es :: LinkFree(x.node) by {
            forall x <- es ensures LinkFree(x.node) {
              var i :| 0 <= i < |es| && es[i] == x;
            }
          }
          assert forall x <- rest + es :: x in rest || x in es;
        }
        RunLinkIrrelevant(Next(s, ignore, false).next, ignore);
      }
    }
  }
}
