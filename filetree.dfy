/**
  The filesystem as the checker's queries see it (botbot/checker.py).

  The checker only ever asks four things about a path: can a FileInfo be
  built for it, does `is_link` hold for it, is it a directory, and what
  does `os.listdir` return for it. The tree below answers exactly these.
  The filesystem is taken to be static for the duration of a scan.
 */
module FileTree {
  import opened Wrappers

  /** Linux errno values that Python maps to dedicated OSError subclasses. */
  const EPERM: nat := 1
  const ENOENT: nat := 2
  const EACCES: nat := 13
  const ENOTDIR: nat := 20

  /** An OSError raised by a filesystem call, by its errno. */
  datatype OsError = OsError(errno: nat)

  /**
    What the filesystem holds at one path:
    - File: a FileInfo can be built and the path is neither a link nor a directory;
    - Dir: a directory whose listing succeeds, with its entries in `os.listdir` order;
    - Unlistable: a directory (S_ISDIR holds) whose `os.listdir` raises `listError`;
    - Link: a path for which `is_link` holds (botbot/checker.py:131-133), which
      includes every path below a symlinked ancestor; `target` is what the path
      resolves to, and only matters for the root, the one path the checker
      lists without asking `is_link` first;
    - Unstatable: building the FileInfo for the path raises `statError`.
   */
  datatype Node =
    | File
    | Dir(children: seq<Child>)
    | Unlistable(listError: OsError)
    | Link(target: Node)
    | Unstatable(statError: OsError)

  /** One name returned by `os.listdir`, with what the filesystem holds under it. */
  datatype Child = Child(name: string, node: Node)

  /** A path waiting in the work-list, with what the filesystem holds there. */
  datatype Entry = Entry(path: string, node: Node)

  /** The metadata object built for a path (fileinfo.py is not part of this model). */
  datatype FileInfo = FileInfo(path: string, node: Node)

  /** The result of `os.listdir`. */
  datatype Listing = Listed(children: seq<Child>) | ListFailed(error: OsError)

  /** `stat.S_ISDIR` on the path's mode. */
  predicate IsDir(n: Node)
  {
    n.Dir? || n.Unlistable?
  }

  /** `os.listdir(path)`: symlinks are followed, a non-directory raises ENOTDIR. */
  function ListDir(n: Node): (l: Listing)
    ensures !n.Link? ==> (l.Listed? <==> n.Dir?)
    ensures n.Dir? ==> l == Listed(n.children)
    ensures n.File? ==> l == ListFailed(OsError(ENOTDIR))
  {
    match n
    case Dir(cs) => Listed(cs)
    case Unlistable(e) => ListFailed(e)
    case Unstatable(e) => ListFailed(e)
    case File => ListFailed(OsError(ENOTDIR))
    case Link(t) => ListDir(t)
  }

  /** A name `os.listdir` can return: not empty, and without '/'. */
  predicate IsEntryName(name: string)
  {
    name != [] && '/' !in name
  }

  /**
    `os.path.join(dir, name)` on POSIX. Joined with a name `os.listdir`
    returned, the path strictly extends the directory's and ends in the name.
   */
  function Join(dir: string, name: string): (p: string)
    ensures IsEntryName(name) ==> dir < p && |name| <= |p| && p[|p| - |name|..] == name
  {
    assert name != [] ==> name[0] in name;
    if name != [] && name[0] == '/' then name
    else if dir == [] || dir[|dir| - 1] == '/' then dir + name
    else dir + "/" + name
  }

  /**
    How the model encodes a root that is itself a symlink, or lies below one:
    every path below it is one for which `is_link` holds (its absolute and
    real paths differ), so each entry of its listing is a Link, unless its
    FileInfo cannot be built at all.
   */
  predicate RootEncoded(top: Node)
  {
    top.Link? && ListDir(top).Listed? ==>
      forall i :: 0 <= i < |ListDir(top).children| ==>
        ListDir(top).children[i].node.Link? || ListDir(top).children[i].node.Unstatable?
  }

  /** `[os.path.join(dir, f) for f in os.listdir(dir)]`, each with its node. */
  function Entries(dir: string, cs: seq<Child>): (es: seq<Entry>)
    ensures |es| == |cs|
  {
    if cs == [] then []
    else
      var c := cs[|cs| - 1];
      Entries(dir, cs[..|cs| - 1]) + [Entry(Join(dir, c.name), c.node)]
  }

  /** The `i`-th entry is the `i`-th name joined to the directory, with its node. */
  lemma {:induction false} EntriesAt(dir: string, cs: seq<Child>)
    ensures forall i :: 0 <= i < |cs| ==> Entries(dir, cs)[i] == Entry(Join(dir, cs[i].name), cs[i].node)
    decreases |cs|
  {
    if cs != [] {
      EntriesAt(dir, cs[..|cs| - 1]);
    }
  }

  /** Every name in the tree below `n` is a possible `os.listdir` name. */
  predicate WellNamed(n: Node)
  {
    match n
    case Dir(cs) => forall i :: 0 <= i < |cs| ==> IsEntryName(cs[i].name) && WellNamed(cs[i].node)
    case Link(t) => WellNamed(t)
    case _ => true
  }

  /** The number of nodes a walk that does not follow links can reach from `n`, counting `n`. */
  function Weight(n: Node): (w: nat)
    ensures w >= 1
    decreases n, 1
  {
    match n
    case Dir(cs) => 1 + ChildrenWeight(cs)
    case _ => 1
  }

  function ChildrenWeight(cs: seq<Child>): nat
    decreases cs, 0
  {
    if cs == [] then 0 else ChildrenWeight(cs[..|cs| - 1]) + Weight(cs[|cs| - 1].node)
  }

  /** The total weight of a work-list: a bound on how many more times it can be popped. */
  function PendingWeight(es: seq<Entry>): nat
  {
    if es == [] then 0 else PendingWeight(es[..|es| - 1]) + Weight(es[|es| - 1].node)
  }

  lemma {:induction false} PendingWeightAppend(a: seq<Entry>, b: seq<Entry>)
    ensures PendingWeight(a + b) == PendingWeight(a) + PendingWeight(b)
    decreases |b|
  {
    if b != [] {
      assert (a + b)[..|a + b| - 1] == a + b[..|b| - 1];
      PendingWeightAppend(a, b[..|b| - 1]);
    } else {
      assert a + b == a;
    }
  }

  lemma {:induction false} EntriesWeight(dir: string, cs: seq<Child>)
    ensures PendingWeight(Entries(dir, cs)) == ChildrenWeight(cs)
    decreases |cs|
  {
    if cs != [] {
      assert Entries(dir, cs)[..|cs| - 1] == Entries(dir, cs[..|cs| - 1]);
      EntriesWeight(dir, cs[..|cs| - 1]);
    }
  }
}
