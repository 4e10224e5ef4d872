/** Finite sums of reals, and exchanging two of them. */
module Sums {

  /** `f(lo) + ... + f(hi - 1)`. */
  ghost function Sum(lo: int, hi: int, f: int -> real): real
    decreases hi - lo
  {
    if lo >= hi then 0.0 else Sum(lo, hi - 1, f) + f(hi - 1)
  }

  lemma {:induction false} SumEqual(lo: int, hi: int, f: int -> real, g: int -> real)
    requires forall i :: lo <= i < hi ==> f(i) == g(i)
    ensures Sum(lo, hi, f) == Sum(lo, hi, g)
    decreases hi - lo
  {
    if lo < hi {
      SumEqual(lo, hi - 1, f, g);
    }
  }

  lemma {:induction false} SumScaled(lo: int, hi: int, f: int -> real, g: int -> real, k: real)
    requires forall i :: lo <= i < hi ==> g(i) == f(i) * k
    ensures Sum(lo, hi, g) == Sum(lo, hi, f) * k
    decreases hi - lo
  {
    if lo < hi {
      SumScaled(lo, hi - 1, f, g, k);
    }
  }

  lemma {:induction false} SumAdded(lo: int, hi: int, f: int -> real, g: int -> real, both: int -> real)
    requires forall i :: lo <= i < hi ==> both(i) == f(i) + g(i)
    ensures Sum(lo, hi, both) == Sum(lo, hi, f) + Sum(lo, hi, g)
    decreases hi - lo
  {
    if lo < hi {
      SumAdded(lo, hi - 1, f, g, both);
    }
  }

  lemma {:induction false} SumAtMost(lo: int, hi: int, f: int -> real, g: int -> real)
    requires forall i :: lo <= i < hi ==> f(i) <= g(i)
    ensures Sum(lo, hi, f) <= Sum(lo, hi, g)
    decreases hi - lo
  {
    if lo < hi {
      SumAtMost(lo, hi - 1, f, g);
    }
  }

  lemma {:induction false} SumZero(lo: int, hi: int, f: int -> real)
    requires forall i :: lo <= i < hi ==> f(i) == 0.0
    ensures Sum(lo, hi, f) == 0.0
    decreases hi - lo
  {
    if lo < hi {
      SumZero(lo, hi - 1, f);
    }
  }

  lemma {:induction false} SumSplit(lo: int, mid: int, hi: int, f: int -> real)
    requires lo <= mid <= hi
    ensures Sum(lo, hi, f) == Sum(lo, mid, f) + Sum(mid, hi, f)
    decreases hi - lo
  {
    if mid < hi {
      SumSplit(lo, mid, hi - 1, f);
    }
  }

  /** Terms outside `a..b` that are zero may be left out. */
  lemma SumWithin(lo: int, a: int, b: int, hi: int, f: int -> real)
    requires lo <= a <= b <= hi
    requires forall i :: lo <= i < hi && !(a <= i < b) ==> f(i) == 0.0
    ensures Sum(lo, hi, f) == Sum(a, b, f)
  {
    SumSplit(lo, a, hi, f);
    SumSplit(a, b, hi, f);
    SumZero(lo, a, f);
    SumZero(b, hi, f);
  }

  // ----- Tables -----

  type Table = (int, int) -> real

  ghost function RowOf(f: Table, i: int): int -> real {
    j => f(i, j)
  }

  ghost function ColumnOf(f: Table, j: int): int -> real {
    i => f(i, j)
  }

  /** The sum of each row over columns `lo..hi`. */
  ghost function RowSums(f: Table, lo: int, hi: int): int -> real {
    i => Sum(lo, hi, RowOf(f, i))
  }

  ghost function ColumnSums(f: Table, lo: int, hi: int): int -> real {
    j => Sum(lo, hi, ColumnOf(f, j))
  }

  /** Rows then columns, or columns then rows. */
  lemma {:induction false} SumExchange(lo: int, hi: int, lo': int, hi': int, f: Table)
    ensures Sum(lo, hi, RowSums(f, lo', hi')) == Sum(lo', hi', ColumnSums(f, lo, hi))
    decreases hi - lo
  {
    if lo >= hi {
      SumZero(lo', hi', ColumnSums(f, lo, hi));
    } else {
      SumExchange(lo, hi - 1, lo', hi', f);
      SumAdded(lo', hi', ColumnSums(f, lo, hi - 1), RowOf(f, hi - 1), ColumnSums(f, lo, hi));
    }
  }
}
