/** The `BranchSlider` carousel: one index into a fixed list of branches,
    stepped forwards and backwards modulo the list length, or set directly
    by clicking one of the dots (one dot per branch). */
module BranchCarousel {

  /** The behaviour-relevant part of a branch entry; icons, colours and
      descriptive text are presentation only. */
  datatype Branch = Branch(id: string, title: string, href: string)

  const Branches: seq<Branch> := [
    Branch("slt-energies", "SLT Energies", "/slt-energies"),
    Branch("slt-entertainment", "SLT Entertainment", "/slt-entertainment"),
    Branch("slt-tech", "SLT Tech", "/slt-tech")
  ]

  /** `branches.length`. */
  function BranchCount(): (n: nat)
    ensures n == 3
  {
    |Branches|
  }

  /** The branch ids serve as React keys, so they are pairwise distinct. */
  lemma BranchIdsDistinct()
    ensures forall i, j :: 0 <= i < j < |Branches| ==> Branches[i].id != Branches[j].id
  {
  }

  /** `(prev + 1) % n`. The operand is non-negative, so JavaScript's
      truncating `%` and Dafny's Euclidean `%` agree. */
  function Next(i: int, n: int): (r: int)
    requires 0 <= i < n
    ensures 0 <= r < n
    ensures r == if i == n - 1 then 0 else i + 1
  {
    (i + 1) % n
  }

  /** `(prev - 1 + n) % n`, again with a non-negative operand. */
  function Prev(i: int, n: int): (r: int)
    requires 0 <= i < n
    ensures 0 <= r < n
    ensures r == if i == 0 then n - 1 else i - 1
  {
    (i - 1 + n) % n
  }

  /** Going forward and then back returns to the start, and vice versa. */
  lemma PrevNextInverse(i: int, n: int)
    requires 0 <= i < n
    ensures Prev(Next(i, n), n) == i
    ensures Next(Prev(i, n), n) == i
  {
  }

  /** `Next` applied `k` times. */
  function Advance(i: int, n: int, k: nat): (r: int)
    requires 0 <= i < n
    ensures 0 <= r < n
  {
    if k == 0 then i else Next(Advance(i, n, k - 1), n)
  }

  /** `Prev` applied `k` times. */
  function Retreat(i: int, n: int, k: nat): (r: int)
    requires 0 <= i < n
    ensures 0 <= r < n
  {
    if k == 0 then i else Prev(Retreat(i, n, k - 1), n)
  }

  /** Stepping forward `k` times lands on `(i + k) mod n`. */
  lemma {:induction false} AdvanceIsAddition(i: int, n: int, k: nat)
    requires 0 <= i < n
    ensures Advance(i, n, k) == (i + k) % n
  {
    if k > 0 {
      AdvanceIsAddition(i, n, k - 1);
      ModStep(i + k - 1, n);
    }
  }

  /** How `%` moves when its operand grows by one. */
  lemma ModStep(a: nat, n: int)
    requires 0 < n
    ensures (a + 1) % n == if a % n == n - 1 then 0 else a % n + 1
  {
    var q, r := a / n, a % n;
    if r == n - 1 {
      assert a + 1 == (q + 1) * n + 0;
      ModUnique(a + 1, n, q + 1, 0);
    } else {
      assert a + 1 == q * n + (r + 1);
      ModUnique(a + 1, n, q, r + 1);
    }
  }

  /** The remainder is determined by any quotient/remainder split. */
  lemma ModUnique(a: int, n: int, q: int, r: int)
    requires 0 < n && 0 <= r < n
    requires a == q * n + r
    ensures a % n == r
  {
    var q', r' := a / n, a % n;
    assert a == q' * n + r';
    var d := q - q';
    assert d * n == r' - r;
    if d > 0 {
      MulAtLeast(d, n);
    } else if d < 0 {
      MulAtLeast(-d, n);
    }
  }

  lemma MulAtLeast(d: int, n: int)
    requires 0 < d && 0 < n
    ensures d * n >= n
  {
  }

  /** n presses of "next" bring the carousel back to where it started. */
  lemma FullCycleReturns(i: int, n: int)
    requires 0 <= i < n
    ensures Advance(i, n, n) == i
  {
    AdvanceIsAddition(i, n, n);
    ModUnique(i + n, n, 1, i);
  }

  /** On the site's three branches, three presses of "next" come back round. */
  lemma CarouselFullCycle(i: int)
    requires 0 <= i < |Branches|
    ensures Advance(i, |Branches|, BranchCount()) == i
  {
    FullCycleReturns(i, |Branches|);
  }

  /** Stepping back `k` times undoes stepping forward `k` times. */
  lemma {:induction false} RetreatUndoesAdvance(i: int, n: int, k: nat)
    requires 0 <= i < n
    ensures Retreat(Advance(i, n, k), n, k) == i
  {
    if k > 0 {
      var j := Advance(i, n, k - 1);
      PrevNextInverse(j, n);
      RetreatPeelFirst(Next(j, n), n, k - 1);
      RetreatUndoesAdvance(i, n, k - 1);
    }
  }

  /** `Retreat` can also be unfolded from the front. */
  lemma {:induction false} RetreatPeelFirst(i: int, n: int, k: nat)
    requires 0 <= i < n
    ensures Retreat(i, n, k + 1) == Retreat(Prev(i, n), n, k)
  {
    if k > 0 {
      RetreatPeelFirst(i, n, k - 1);
    }
  }

  /** Dot `d` is highlighted (`index === currentIndex`). */
  predicate DotActive(d: int, current: int)
  {
    d == current
  }

  /** Of the dots rendered, one per branch, exactly one is active: the one
      at the current index. */
  lemma ExactlyOneDotActive(current: int, n: int)
    requires 0 <= current < n
    ensures (set d | 0 <= d < n && DotActive(d, current)) == {current}
  {
  }

  /** The component's state: `currentIndex`. */
  class BranchSlider {
    var currentIndex: int

    /** The index always names a branch. */
    ghost predicate Valid()
      reads this
    {
      0 <= currentIndex < |Branches|
    }

    /** `useState(0)`. */
    constructor ()
      ensures Valid()
      ensures currentIndex == 0
    {
      currentIndex := 0;
    }

    /** `nextSlide`, the right chevron. */
    method NextSlide()
      requires Valid()
      modifies this
      ensures Valid()
      ensures currentIndex == Next(old(currentIndex), |Branches|)
    {
      currentIndex := (currentIndex + 1) % |Branches|;
    }

    /** `prevSlide`, the left chevron. */
    method PrevSlide()
      requires Valid()
      modifies this
      ensures Valid()
      ensures currentIndex == Prev(old(currentIndex), |Branches|)
    {
      currentIndex := (currentIndex - 1 + |Branches|) % |Branches|;
    }

    /** Clicking dot `index`; dots are generated by mapping over `branches`,
        so `index` is a position in it. */
    method SelectDot(index: int)
      requires Valid()
      requires 0 <= index < |Branches|
      modifies this
      ensures Valid()
      ensures currentIndex == index
    {
      currentIndex := index;
    }

    /** Whether dot `index` gets the highlighted style. */
    method IsDotActive(index: int) returns (active: bool)
      requires Valid()
      ensures active <==> DotActive(index, currentIndex)
    {
      active := index == currentIndex;
    }
  }

  /** A client of the class: next then prev is a no-op on the visible
      branch; three nexts come back round. */
  method NavigationRoundTrip(s: BranchSlider)
    requires s.Valid()
    modifies s
    ensures s.Valid()
    ensures s.currentIndex == old(s.currentIndex)
  {
    s.NextSlide();
    s.PrevSlide();
    s.NextSlide();
    s.NextSlide();
    s.NextSlide();
  }
}
