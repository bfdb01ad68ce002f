/**
  Ignore rules (botbot/ignore.py).

  The ignore file is given as the sequence of its lines, each as Python's
  file iteration yields it (with its line terminator, if any), or as None
  when no ignore file exists. Each line becomes one rule: everything from
  the first '#' on is dropped, then surrounding whitespace is removed.
 */
module Ignore {
  import opened Wrappers

  /** The characters for which Python's `str.isspace()` holds, i.e. what `str.strip()` removes. */
  predicate IsSpace(c: char)
  {
    c == ' ' || ('\t' <= c <= '\r') || ('\U{1C}' <= c <= '\U{1F}')
    || c == '\U{85}' || c == '\U{A0}' || c == '\U{1680}'
    || ('\U{2000}' <= c <= '\U{200A}') || c == '\U{2028}' || c == '\U{2029}'
    || c == '\U{202F}' || c == '\U{205F}' || c == '\U{3000}'
  }

  predicate AllSpace(s: string)
  {
    forall i :: 0 <= i < |s| ==> IsSpace(s[i])
  }

  /** Neither the first nor the last character of `s` is whitespace. */
  predicate NoEdgeSpace(s: string)
  {
    s == [] || (!IsSpace(s[0]) && !IsSpace(s[|s| - 1]))
  }

  /** `s.split('#')[0]`: the part of `s` before its first '#'. */
  function BeforeHash(s: string): string
  {
    if s == [] || s[0] == '#' then [] else [s[0]] + BeforeHash(s[1..])
  }

  /** `BeforeHash(s)` is a prefix of `s` without '#', ending where `s` has its first '#' (if any). */
  lemma {:induction false} BeforeHashSpec(s: string)
    ensures BeforeHash(s) <= s
    ensures '#' !in BeforeHash(s)
    ensures |BeforeHash(s)| < |s| ==> s[|BeforeHash(s)|] == '#'
  {
    if s != [] && s[0] != '#' {
      BeforeHashSpec(s[1..]);
      assert BeforeHash(s) == [s[0]] + BeforeHash(s[1..]);
    }
  }

  /** `s.lstrip()` */
  function TrimStart(s: string): string
  {
    if s != [] && IsSpace(s[0]) then TrimStart(s[1..]) else s
  }

  /** `s.rstrip()` */
  function TrimEnd(s: string): string
  {
    if s != [] && IsSpace(s[|s| - 1]) then TrimEnd(s[..|s| - 1]) else s
  }

  /** How many whitespace characters `s.lstrip()` removes from the front of `s`. */
  function LeadingSpace(s: string): nat
  {
    TrimStartSpec(s);
    |s| - |TrimStart(s)|
  }

  /** `s.strip()` */
  function Strip(s: string): string
  {
    TrimEnd(TrimStart(s))
  }

  /** `s.lstrip()` removes exactly the leading whitespace of `s`. */
  lemma {:induction false} TrimStartSpec(s: string)
    ensures |TrimStart(s)| <= |s| && TrimStart(s) == s[|s| - |TrimStart(s)|..]
    ensures AllSpace(s[..|s| - |TrimStart(s)|])
    ensures TrimStart(s) == [] || !IsSpace(TrimStart(s)[0])
  {
    if s != [] && IsSpace(s[0]) {
      TrimStartSpec(s[1..]);
      var n := |s| - |TrimStart(s)|;
      assert s[..n] == [s[0]] + s[1..][..n - 1];
    }
  }

  /** `s.rstrip()` removes exactly the trailing whitespace of `s`. */
  lemma {:induction false} TrimEndSpec(s: string)
    ensures TrimEnd(s) <= s
    ensures AllSpace(s[|TrimEnd(s)|..])
    ensures TrimEnd(s) == [] || !IsSpace(TrimEnd(s)[|TrimEnd(s)| - 1])
  {
    if s != [] && IsSpace(s[|s| - 1]) {
      var t := s[..|s| - 1];
      TrimEndSpec(t);
      assert s[|TrimEnd(s)|..] == t[|TrimEnd(t)|..] + [s[|s| - 1]];
    }
  }

  /**
    `s.strip()` is the slice of `s` that starts after its leading whitespace,
    has no whitespace at either end, and leaves only whitespace behind it.
   */
  lemma StripSpec(s: string)
    ensures NoEdgeSpace(Strip(s))
    ensures LeadingSpace(s) + |Strip(s)| <= |s|
    ensures Strip(s) == s[LeadingSpace(s)..LeadingSpace(s) + |Strip(s)|]
    ensures AllSpace(s[..LeadingSpace(s)])
    ensures AllSpace(s[LeadingSpace(s) + |Strip(s)|..])
  {
    var t := TrimStart(s);
    var r := TrimEnd(t);
    TrimStartSpec(s);
    TrimEndSpec(t);
    assert s[|s| - |t| + |r|..] == t[|r|..];
  }

  /**
    `strip_comments(line)`: `line.split('#')[0].strip()` (botbot/ignore.py:20-21).
    A rule never contains '#' and never starts or ends with whitespace.
   */
  function StripComments(line: string): (rule: string)
    ensures '#' !in rule
    ensures NoEdgeSpace(rule)
  {
    var p := BeforeHash(line);
    BeforeHashSpec(line);
    StripSpec(p);
    assert forall i :: 0 <= i < |Strip(p)| ==> Strip(p)[i] in p;
    Strip(p)
  }

  /** `BeforeHash` is pinned down by the position `k` of the first '#' (or `|s|` if there is none). */
  lemma BeforeFirstHash(s: string, k: nat)
    requires k <= |s| && '#' !in s[..k] && (k == |s| || s[k] == '#')
    ensures BeforeHash(s) == s[..k]
  {
    var r := BeforeHash(s);
    BeforeHashSpec(s);
    assert |r| == k;
  }

  /** Stripping a string that already has no whitespace at either end changes nothing. */
  lemma StripNoEdgeSpace(s: string)
    requires NoEdgeSpace(s)
    ensures Strip(s) == s
  {
    assert TrimStart(s) == s;
  }

  /** A string made only of whitespace strips to the empty string. */
  lemma StripAllSpace(s: string)
    requires AllSpace(s)
    ensures Strip(s) == []
  {
    StripSpec(s);
  }

  /**
    The rule made from `line` is the stripped prefix of `line` before its
    first '#', where `k` is the position of that '#' (or `|line|`).
   */
  lemma StripCommentsIsStrippedPrefix(line: string, k: nat)
    requires k <= |line| && '#' !in line[..k] && (k == |line| || line[k] == '#')
    ensures StripComments(line) == Strip(line[..k])
  {
    BeforeFirstHash(line, k);
  }

  /** A line without '#' just becomes its stripped self. */
  lemma StripCommentsNoHash(line: string)
    requires '#' !in line
    ensures StripComments(line) == Strip(line)
  {
    assert line[..|line|] == line;
    BeforeFirstHash(line, |line|);
  }

  /**
    A blank line, or one whose first non-whitespace character is '#'
    (at position `k`), gives the empty rule.
   */
  lemma StripCommentsBlank(line: string, k: nat)
    requires k <= |line| && AllSpace(line[..k]) && (k == |line| || line[k] == '#')
    ensures StripComments(line) == ""
  {
    assert forall i :: 0 <= i < k ==> line[..k][i] != '#';
    BeforeFirstHash(line, k);
    StripAllSpace(line[..k]);
  }

  /** Stripping comments twice is the same as stripping them once. */
  lemma StripCommentsIdempotent(line: string)
    ensures StripComments(StripComments(line)) == StripComments(line)
  {
    var r := StripComments(line);
    StripCommentsNoHash(r);
    StripNoEdgeSpace(r);
  }

  /**
    The rule list read from an ignore file given by its lines, as a value:
    one rule per line (none without a file), each free of '#' and of
    whitespace at either end.
   */
  function Rules(file: Option<seq<string>>): (rules: seq<string>)
    ensures |rules| == if file.Some? then |file.value| else 0
    ensures forall i :: 0 <= i < |rules| ==> '#' !in rules[i] && NoEdgeSpace(rules[i])
  {
    match file
    case None => []
    case Some(lines) => seq(|lines|, i requires 0 <= i < |lines| => StripComments(lines[i]))
  }

  /**
    `parse_ignore_rules(path)` (botbot/ignore.py:12-18), with the file's
    lines in place of its path: one rule per line, in file order, blank
    rules kept; no file gives no rules.
   */
  method ParseIgnoreRules(file: Option<seq<string>>) returns (rules: seq<string>)
    ensures file.None? ==> rules == []
    ensures file.Some? ==> |rules| == |file.value|
    ensures file.Some? ==> forall i :: 0 <= i < |rules| ==> rules[i] == StripComments(file.value[i])
    ensures rules == Rules(file)
  {
    rules := [];
    if file.Some? {
      var i := 0;
      while i < |file.value|
        invariant i <= |file.value| && |rules| == i
        invariant forall j :: 0 <= j < i ==> rules[j] == StripComments(file.value[j])
      {
        rules := rules + [StripComments(file.value[i])];
        i := i + 1;
      }
    }
  }

  /**
    No rule can exclude a path that contains '#' or that starts or ends with
    whitespace: rules are compared with paths by exact string equality.
   */
  lemma UnmatchablePaths(file: Option<seq<string>>, path: string)
    requires '#' in path || !NoEdgeSpace(path)
    ensures path !in Rules(file)
  {
    var rules := Rules(file);
    assert forall i :: 0 <= i < |rules| ==> rules[i] != path;
  }
}
