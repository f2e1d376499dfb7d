/** Socket id allocation: a process-wide counter, masked to 28 bits, that skips
    zero and every id present in the peer's socket table. */
module SocketIds {
  import opened Base

  const ID_SPAN: nat := 0x1000_0000
  // The counter is a 32-bit integer; only its residue matters.
  const COUNTER_SPAN: nat := 0x1_0000_0000

  /** The id that the k-th increment of the counter yields. */
  function Candidate(counter: nat, k: nat): nat {
    (counter + k) % ID_SPAN
  }

  predicate Taken(used: set<nat>, id: nat) {
    id == 0 || id in used
  }

  /** The first k candidates are all taken and the next one is free. */
  ghost predicate FirstFree(counter: nat, used: set<nat>, k: nat) {
    && !Taken(used, Candidate(counter, k))
    && forall j :: 0 <= j < k ==> Taken(used, Candidate(counter, j))
  }

  ghost function Tried(counter: nat, k: nat): set<nat> {
    set j | 0 <= j < k :: Candidate(counter, j)
  }

  lemma CandidatesDiffer(counter: nat, i: nat, j: nat)
    requires i < j < i + ID_SPAN
    ensures Candidate(counter, i) != Candidate(counter, j)
  {
    var a, b := (counter + i) / ID_SPAN, (counter + j) / ID_SPAN;
    assert j - i == (b - a) * ID_SPAN + Candidate(counter, j) - Candidate(counter, i);
  }

  lemma {:induction false} TriedSize(counter: nat, k: nat)
    requires k <= ID_SPAN
    ensures |Tried(counter, k)| == k
  {
    if k == 0 {
      assert Tried(counter, 0) == {};
    } else {
      TriedSize(counter, k - 1);
      forall j | 0 <= j < k - 1
        ensures Candidate(counter, j) != Candidate(counter, k - 1)
      {
        CandidatesDiffer(counter, j, k - 1);
      }
      assert Tried(counter, k) == Tried(counter, k - 1) + {Candidate(counter, k - 1)};
    }
  }

  /** A run of taken candidates is at most one longer than the table: every
      candidate in it is distinct, and is zero or a table key. */
  lemma TakenRunIsShort(counter: nat, used: set<nat>, k: nat)
    requires k <= ID_SPAN
    requires forall j :: 0 <= j < k ==> Taken(used, Candidate(counter, j))
    ensures k <= |used| + 1
  {
    TriedSize(counter, k);
    SubsetIsSmaller(Tried(counter, k), used + {0});
  }

  /** Two allocations less than 2^28 counter steps apart never give the same id,
      whatever left the table in between. */
  lemma NoReuseWithinSpan(counter: nat, i: nat, used: set<nat>, j: nat, used': set<nat>)
    requires i < j < i + ID_SPAN
    requires FirstFree(counter, used, i)
    requires FirstFree(counter + i + 1, used', j - i - 1)
    ensures Candidate(counter, i) != Candidate(counter + i + 1, j - i - 1)
  {
    CandidatesDiffer(counter, i, j);
  }

  /** Wrapping the counter at 32 bits neither disturbs the count of increments
      nor the 28-bit candidate. */
  lemma WrapKeepsCandidate(start: nat, k: nat)
    ensures (start + k) % COUNTER_SPAN % ID_SPAN == Candidate(start, k)
    ensures ((start + k) % COUNTER_SPAN + 1) % COUNTER_SPAN == (start + k + 1) % COUNTER_SPAN
  {
    WrapMask(start + k);
    WrapNext(start + k);
  }

  lemma WrapMask(c: nat)
    ensures c % COUNTER_SPAN % ID_SPAN == c % ID_SPAN
  {
    assert c == c / COUNTER_SPAN * 16 * ID_SPAN + c % COUNTER_SPAN;
  }

  lemma WrapNext(c: nat)
    ensures (c % COUNTER_SPAN + 1) % COUNTER_SPAN == (c + 1) % COUNTER_SPAN
  {
    assert c == c / COUNTER_SPAN * COUNTER_SPAN + c % COUNTER_SPAN;
  }

  class IdAllocator {
    var nextId: nat

    predicate Valid()
      reads this
    {
      nextId < COUNTER_SPAN
    }

    constructor ()
      ensures Valid() && nextId == 0
    {
      nextId := 0;
    }

    /** Terminates after at most |used| + 2 tries, also across the wrap of the
        counter, with an id in range that the table does not hold. */
    method Next(used: set<nat>) returns (id: nat, tries: nat)
      requires Valid()
      requires |used| < ID_MAX
      modifies this
      ensures Valid()
      ensures 1 <= id <= ID_MAX && id !in used
      ensures 1 <= tries <= |used| + 2
      ensures FirstFree(old(nextId), used, tries - 1) && id == Candidate(old(nextId), tries - 1)
      ensures nextId == (old(nextId) + tries) % COUNTER_SPAN
    {
      ghost var start := nextId;
      WrapKeepsCandidate(start, 0);
      id := nextId % ID_SPAN;
      nextId := (nextId + 1) % COUNTER_SPAN;
      tries := 1;
      while id == 0 || id in used
        invariant Valid()
        invariant 1 <= tries <= |used| + 2
        invariant nextId == (start + tries) % COUNTER_SPAN
        invariant id == Candidate(start, tries - 1)
        invariant forall j :: 0 <= j < tries - 1 ==> Taken(used, Candidate(start, j))
        decreases |used| + 2 - tries
      {
        TakenRunIsShort(start, used, tries);
        WrapKeepsCandidate(start, tries);
        id := nextId % ID_SPAN;
        nextId := (nextId + 1) % COUNTER_SPAN;
        tries := tries + 1;
      }
    }
  }
}
