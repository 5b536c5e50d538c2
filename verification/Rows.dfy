/** Row selections shared by the capture, training and sampling paths. */
module Rows {
  import opened Common

  // ---- first row of every prompt ----------------------------------------------------

  /** Rows below n that carry a non-negative prompt no earlier row carries. */
  function FirstRows(prompts: seq<int>, n: nat): (rows: seq<int>)
    requires n <= |prompts|
    ensures forall k :: 0 <= k < |rows| ==> 0 <= rows[k] < n
  {
    if n == 0 then []
    else
      var before := FirstRows(prompts, n - 1);
      if prompts[n - 1] >= 0 && prompts[n - 1] !in prompts[..n - 1] then before + [n - 1] else before
  }

  lemma {:induction false} FirstRowsFit(prompts: seq<int>, n: nat)
    requires n <= |prompts|
    ensures |FirstRows(prompts, n)| <= n
  {
    if n > 0 { FirstRowsFit(prompts, n - 1); }
  }

  /** What "first row per prompt" means, without the scan. */
  ghost predicate IsFirst(prompts: seq<int>, row: int) {
    0 <= row < |prompts| && prompts[row] >= 0 && forall r :: 0 <= r < row ==> prompts[r] != prompts[row]
  }

  lemma {:induction false} FirstRowsMeaning(prompts: seq<int>, n: nat)
    requires n <= |prompts|
    ensures StrictlyIncreasing(FirstRows(prompts, n))
    ensures forall r :: r in FirstRows(prompts, n) <==> r < n && IsFirst(prompts, r)
  {
    if n > 0 {
      FirstRowsMeaning(prompts, n - 1);
      assert prompts[n - 1] !in prompts[..n - 1] <==> forall r :: 0 <= r < n - 1 ==> prompts[r] != prompts[n - 1];
    }
  }

  /** The first row of the prompt carried by row r. */
  lemma {:induction false} FirstRowExists(prompts: seq<int>, r: int) returns (f: int)
    requires 0 <= r < |prompts| && prompts[r] >= 0
    ensures f <= r && IsFirst(prompts, f) && prompts[f] == prompts[r]
    decreases r
  {
    if q :| 0 <= q < r && prompts[q] == prompts[r] { f := FirstRowExists(prompts, q); } else { f := r; }
  }

  /** The scan with a growing `seen` set that the program uses in four places. */
  method ScanFirstRows(prompts: seq<int>, active: nat) returns (rows: seq<int>)
    requires active <= |prompts|
    ensures rows == FirstRows(prompts, active)
  {
    var seen: set<int> := {};
    rows := [];
    for i := 0 to active
      invariant rows == FirstRows(prompts, i)
      invariant forall p :: p in seen <==> p >= 0 && p in prompts[..i]
    {
      assert prompts[..i + 1] == prompts[..i] + [prompts[i]];
      if prompts[i] >= 0 && prompts[i] !in seen {
        seen := seen + {prompts[i]};
        rows := rows + [i];
      }
    }
  }

  // ---- nonzero -----------------------------------------------------------------------

  /** mask.nonzero().view(-1) */
  function Nonzero(mask: seq<bool>): (ids: seq<int>)
    ensures forall k :: 0 <= k < |ids| ==> 0 <= ids[k] < |mask| && mask[ids[k]]
    ensures |ids| <= |mask|
  {
    if mask == [] then []
    else
      var n := |mask| - 1;
      var before := Nonzero(mask[..n]);
      if mask[n] then before + [n] else before
  }

  lemma {:induction false} NonzeroMeaning(mask: seq<bool>)
    ensures StrictlyIncreasing(Nonzero(mask))
    ensures forall r :: r in Nonzero(mask) <==> 0 <= r < |mask| && mask[r]
  {
    if mask != [] {
      var n := |mask| - 1;
      NonzeroMeaning(mask[..n]);
      var before := Nonzero(mask[..n]);
      forall r ensures r in Nonzero(mask) <==> 0 <= r < |mask| && mask[r] {
        assert r in before <==> 0 <= r < n && mask[..n][r];
        assert Nonzero(mask) == if mask[n] then before + [n] else before;
      }
    }
  }

  lemma {:induction false} HeadIsLeast(s: seq<int>)
    requires StrictlyIncreasing(s) && s != []
    ensures forall x :: x in s ==> s[0] <= x
    ensures forall x :: x in s[1..] <==> x in s && x != s[0]
    ensures StrictlyIncreasing(s[1..])
  {
    forall x | x in s && x != s[0] ensures x in s[1..] {
      var k :| 0 <= k < |s| && s[k] == x;
      assert s[1..][k - 1] == x;
    }
  }

  lemma {:induction false} SomeElement(s: seq<int>)
    ensures s != [] ==> exists x :: x in s
  {
    if s != [] {
      var x := s[0];
      assert x in s;
    }
  }

  /** Two strictly increasing sequences with the same elements are equal. */
  lemma {:induction false} IncreasingUnique(a: seq<int>, b: seq<int>)
    requires StrictlyIncreasing(a) && StrictlyIncreasing(b)
    requires forall x :: x in a <==> x in b
    ensures a == b
    decreases |a|
  {
    hide StrictlyIncreasing;
    if a == [] {
      SomeElement(b);
    } else {
      var x := a[0];
      assert x in a && x in b;
      var y := b[0];
      assert y in b && y in a;
      HeadIsLeast(a);
      HeadIsLeast(b);
      IncreasingUnique(a[1..], b[1..]);
      assert a == [a[0]] + a[1..] && b == [b[0]] + b[1..];
    }
  }

  lemma {:induction false} NonzeroAll(mask: seq<bool>)
    ensures Nonzero(mask) == Arange(|mask|) <==> forall r :: 0 <= r < |mask| ==> mask[r]
  {
    NonzeroMeaning(mask);
    if forall r :: 0 <= r < |mask| ==> mask[r] {
      forall x ensures x in Nonzero(mask) <==> x in Arange(|mask|) {
        if 0 <= x < |mask| { assert Arange(|mask|)[x] == x; }
      }
      IncreasingUnique(Nonzero(mask), Arange(|mask|));
    } else {
      var r :| 0 <= r < |mask| && !mask[r];
      assert Arange(|mask|)[r] == r;
      assert r in Arange(|mask|) && r !in Nonzero(mask);
    }
  }

  /** Counting the selected rows tells whether all of them, or none, are selected. */
  lemma {:induction false} NonzeroCount(mask: seq<bool>)
    ensures |Nonzero(mask)| == |mask| <==> forall r :: 0 <= r < |mask| ==> mask[r]
    ensures |Nonzero(mask)| == 0 <==> forall r :: 0 <= r < |mask| ==> !mask[r]
  {
    NonzeroMeaning(mask);
    NonzeroAll(mask);
    if |Nonzero(mask)| == |mask| { IncreasingCoverIsIdentity(Nonzero(mask), |mask|); }
    if Nonzero(mask) == [] {
      forall r | 0 <= r < |mask| ensures !mask[r] { assert r !in Nonzero(mask); }
    } else {
      assert Nonzero(mask)[0] in Nonzero(mask);
    }
  }

  // ---- searchsorted ------------------------------------------------------------------

  /** Number of leading keys below x: torch.searchsorted on a sorted tensor. */
  function SearchSorted(keys: seq<int>, x: int): (pos: nat)
    ensures pos <= |keys|
  {
    if keys == [] || keys[0] >= x then 0 else 1 + SearchSorted(keys[1..], x)
  }

  /** On strictly increasing keys, searchsorted finds a key exactly where it is. */
  lemma {:induction false} SearchSortedFinds(keys: seq<int>, x: int)
    requires StrictlyIncreasing(keys)
    ensures var pos := SearchSorted(keys, x); x in keys <==> pos < |keys| && keys[pos] == x
  {
    if keys != [] && keys[0] < x {
      SearchSortedFinds(keys[1..], x);
      assert x in keys <==> x in keys[1..];
    }
  }

  lemma {:induction false} SearchSortedAt(keys: seq<int>, k: nat)
    requires StrictlyIncreasing(keys) && k < |keys|
    ensures SearchSorted(keys, keys[k]) == k
  {
    SearchSortedFinds(keys, keys[k]);
    IncreasingInjective(keys, SearchSorted(keys, keys[k]), k);
  }

  lemma {:induction false} IncreasingInjective(keys: seq<int>, i: nat, j: nat)
    requires StrictlyIncreasing(keys) && i < |keys| && j < |keys| && keys[i] == keys[j]
    ensures i == j
  {
  }

  // ---- counting ----------------------------------------------------------------------

  ghost function Elements(ids: seq<nat>): set<nat> { set i | i in ids }

  lemma {:induction false} DistinctCount(ids: seq<nat>)
    requires forall a, b :: 0 <= a < b < |ids| ==> ids[a] != ids[b]
    ensures |Elements(ids)| == |ids|
  {
    if ids != [] {
      var n := |ids| - 1;
      DistinctCount(ids[..n]);
      assert ids == ids[..n] + [ids[n]];
      assert Elements(ids) == Elements(ids[..n]) + {ids[n]};
      assert ids[n] !in Elements(ids[..n]);
    }
  }

  /** The prompts that the first n rows carry. */
  ghost function PromptSet(prompts: seq<int>, n: nat): set<int>
    requires n <= |prompts|
  {
    set r | 0 <= r < n && prompts[r] >= 0 :: prompts[r]
  }

  /** One first row per distinct prompt. */
  lemma {:induction false} FirstRowsCount(prompts: seq<int>, n: nat)
    requires n <= |prompts|
    ensures |FirstRows(prompts, n)| == |PromptSet(prompts, n)|
  {
    if n > 0 {
      FirstRowsCount(prompts, n - 1);
      var p := prompts[n - 1];
      if p >= 0 {
        assert PromptSet(prompts, n) == PromptSet(prompts, n - 1) + {p};
        assert p in prompts[..n - 1] <==> p in PromptSet(prompts, n - 1);
      } else {
        assert PromptSet(prompts, n) == PromptSet(prompts, n - 1);
      }
    }
  }
}
