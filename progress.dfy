/**
  The progress bar of `Checker.write_status` (botbot/checker.py:108-116).

  `done` is the number of files checked so far (`status['cfiles']`) and
  `total` the number located (`status['files']`). The source computes
  `math.ceil(done / total * barlen)` in floating point; here the fill
  length is the exact integer ceiling of `done * barlen / total`.
 */
module Progress {
  import opened Wrappers

  /**
    The fill length: the least whole number of cells that covers the
    fraction `done / total` of a bar of `barlen` cells.
   */
  function FillLength(done: nat, total: nat, barlen: nat): (n: nat)
    requires total > 0
    ensures (n - 1) * total < done * barlen <= n * total
  {
    CeilingDivision(done * barlen, total);
    (done * barlen + total - 1) / total
  }

  lemma CeilingDivision(a: nat, b: nat)
    requires b > 0
    ensures ((a + b - 1) / b - 1) * b < a <= ((a + b - 1) / b) * b
  {
    var q := (a + b - 1) / b;
    var r := (a + b - 1) % b;
    assert a + b - 1 == q * b + r && 0 <= r < b;
    assert (q - 1) * b == q * b - b;
  }

  /** The fill length is the only whole number satisfying the ceiling inequalities. */
  lemma FillLengthUnique(done: nat, total: nat, barlen: nat, m: int)
    requires total > 0
    requires (m - 1) * total < done * barlen <= m * total
    ensures m == FillLength(done, total, barlen)
  {
    var n := FillLength(done, total, barlen);
    if m < n {
      assert m * total <= (n - 1) * total by { MulMonotone(m, n - 1, total); }
    } else if m > n {
      assert n * total <= (m - 1) * total by { MulMonotone(n, m - 1, total); }
    }
  }

  lemma MulMonotone(x: int, y: int, k: nat)
    requires x <= y
    ensures x * k <= y * k
  {
    assert y * k - x * k == (y - x) * k;
  }

  /** While no more files are checked than were located, the fill stays within the bar. */
  lemma FillWithinBar(done: nat, total: nat, barlen: nat)
    requires 0 < total && done <= total
    ensures FillLength(done, total, barlen) <= barlen
  {
    var n := FillLength(done, total, barlen);
    MulMonotone(done, total, barlen);
    if n > barlen {
      MulMonotone(barlen, n - 1, total);
    }
  }

  /** Nothing checked, nothing filled. */
  lemma FillEmptyAtStart(total: nat, barlen: nat)
    requires total > 0
    ensures FillLength(0, total, barlen) == 0
  {
    FillLengthUnique(0, total, barlen, 0);
  }

  /** Every located file checked, the bar is full. */
  lemma FillFullAtEnd(total: nat, barlen: nat)
    requires total > 0
    ensures FillLength(total, total, barlen) == barlen
  {
    assert (barlen - 1) * total < total * barlen by {
      assert (barlen - 1) * total == barlen * total - total;
    }
    FillLengthUnique(total, total, barlen, barlen);
  }

  /** Checking more files never shrinks the fill. */
  lemma FillMonotone(d1: nat, d2: nat, total: nat, barlen: nat)
    requires total > 0 && d1 <= d2
    ensures FillLength(d1, total, barlen) <= FillLength(d2, total, barlen)
  {
    var n1, n2 := FillLength(d1, total, barlen), FillLength(d2, total, barlen);
    MulMonotone(d1, d2, barlen);
    if n1 > n2 {
      MulMonotone(n2, n1 - 1, total);
    }
  }

  /** Once more files are checked than were located, the fill runs past the bar. */
  lemma FillOverflows(done: nat, total: nat, barlen: nat)
    requires 0 < total < done && barlen > 0
    ensures FillLength(done, total, barlen) > barlen
  {
    var n := FillLength(done, total, barlen);
    assert total * barlen < done * barlen by {
      assert done * barlen - total * barlen == (done - total) * barlen;
    }
    if n <= barlen {
      MulMonotone(n, barlen, total);
    }
  }

  /** Python's `k * c` for a one-character string `c`: empty when `k` is not positive. */
  function Repeat(c: char, k: int): (r: string)
    ensures |r| == if k > 0 then k else 0
    ensures forall i :: 0 <= i < |r| ==> r[i] == c
    decreases k
  {
    if k <= 0 then "" else [c] + Repeat(c, k - 1)
  }

  /**
    The bar text `filllen * '#' + (barlen - filllen) * '-'`
    (botbot/checker.py:110-115); None when nothing was located, where the
    source raises ZeroDivisionError. The bar holds `filllen` marks followed
    by dashes up to `barlen` characters; when the fill runs past the bar
    there are no dashes and the text is longer than the bar.
   */
  function StatusBar(done: nat, total: nat, barlen: nat): (r: Option<string>)
    ensures r.None? <==> total == 0
    ensures r.Some? ==>
      var n := FillLength(done, total, barlen);
      && |r.value| == (if n <= barlen then barlen else n)
      && forall i :: 0 <= i < |r.value| ==> r.value[i] == if i < n then '#' else '-'
  {
    if total == 0 then None
    else
      var n := FillLength(done, total, barlen);
      Some(Repeat('#', n) + Repeat('-', barlen - n))
  }

  /** While no more files are checked than were located, the bar text is exactly `barlen` characters. */
  lemma StatusBarLength(done: nat, total: nat, barlen: nat)
    requires 0 < total && done <= total
    ensures StatusBar(done, total, barlen).Some?
    ensures |StatusBar(done, total, barlen).value| == barlen
  {
    FillWithinBar(done, total, barlen);
  }

  /** When every located file is checked, the bar is all marks. */
  lemma StatusBarFull(total: nat, barlen: nat)
    requires total > 0
    ensures StatusBar(total, total, barlen) == Some(Repeat('#', barlen))
  {
    FillFullAtEnd(total, barlen);
    assert Repeat('-', 0) == "";
    assert Repeat('#', barlen) + "" == Repeat('#', barlen);
  }
}
