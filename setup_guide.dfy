/**
  The setup checklist of src/components/SetupGuide.tsx: four steps, each of
  which the user can mark done or not done, and the progress line derived
  from the list of completed step ids.
 */
module SetupGuide {
  import Lists

  /** The ids of the four steps, in display order. */
  const StepIds: seq<int> := [1, 2, 3, 4]

  /** `steps.length`. */
  const StepCount: nat := 4

  predicate NoDuplicates(s: seq<int>) {
    forall i, j :: 0 <= i < j < |s| ==> s[i] != s[j]
  }

  function Elements(s: seq<int>): set<int> {
    set x | x in s
  }

  /** `toggleStep(n)` on the previous list: drop every n when n is there,
      otherwise append it. */
  function Toggle(prev: seq<int>, n: int): (r: seq<int>)
    ensures n in r <==> n !in prev
    ensures forall m :: m != n ==> (m in r <==> m in prev)
  {
    if n in prev then Lists.Filter(prev, (x: int) => x != n) else prev + [n]
  }

  /** Toggling keeps the list free of duplicates. */
  lemma ToggleKeepsNoDuplicates(prev: seq<int>, n: int)
    requires NoDuplicates(prev)
    ensures NoDuplicates(Toggle(prev, n))
  {
    if n in prev {
      FilterKeepsNoDuplicates(prev, (x: int) => x != n);
    }
  }

  lemma {:induction false} FilterKeepsNoDuplicates(s: seq<int>, keep: int -> bool)
    requires NoDuplicates(s)
    ensures NoDuplicates(Lists.Filter(s, keep))
  {
    if s != [] {
      var tail := s[1..];
      assert NoDuplicates(tail) by {
        forall i, j | 0 <= i < j < |tail| ensures tail[i] != tail[j] {
          assert tail[i] == s[i + 1] && tail[j] == s[j + 1];
        }
      }
      FilterKeepsNoDuplicates(tail, keep);
      var rest := Lists.Filter(tail, keep);
      if keep(s[0]) {
        assert s[0] !in tail by {
          forall j | 0 <= j < |tail| ensures tail[j] != s[0] {
            assert tail[j] == s[j + 1];
          }
        }
        var r := [s[0]] + rest;
        assert Lists.Filter(s, keep) == r;
        forall i, j | 0 <= i < j < |r| ensures r[i] != r[j] {
          assert r[j] == rest[j - 1];
          if i > 0 {
            assert r[i] == rest[i - 1];
          } else {
            assert r[j] in tail;
          }
        }
      }
    }
  }

  /** Toggling the same id twice restores the set of completed ids; when the
      id was not completed it restores the list itself. */
  lemma ToggleTwice(prev: seq<int>, n: int)
    ensures Elements(Toggle(Toggle(prev, n), n)) == Elements(prev)
    ensures n !in prev ==> Toggle(Toggle(prev, n), n) == prev
  {
    if n !in prev {
      AppendThenDrop(prev, n);
    }
  }

  lemma {:induction false} AppendThenDrop(prev: seq<int>, n: int)
    requires n !in prev
    ensures Lists.Filter(prev + [n], (x: int) => x != n) == prev
  {
    if prev == [] {
      assert ([] + [n])[1..] == [];
    } else {
      assert (prev + [n])[1..] == prev[1..] + [n];
      AppendThenDrop(prev[1..], n);
      assert prev == [prev[0]] + prev[1..];
    }
  }

  /** A duplicate-free list whose elements all occur in `u` is no longer
      than `u`. */
  lemma {:induction false} DistinctWithin(s: seq<int>, u: seq<int>)
    requires NoDuplicates(s) && forall x :: x in s ==> x in u
    ensures |s| <= |u|
  {
    if s != [] {
      var v := s[0];
      assert v in u;
      var rest := Lists.Filter(u, (x: int) => x != v);
      var k :| 0 <= k < |u| && u[k] == v;
      Lists.FilterShorter(u, (x: int) => x != v, k);
      forall x | x in s[1..]
        ensures x in rest
      {
        var j :| 0 <= j < |s[1..]| && s[1..][j] == x;
        assert s[j + 1] == x;
        Lists.FilterMembership(u, (x: int) => x != v, x);
      }
      DistinctWithin(s[1..], rest);
    }
  }

  /** The guide's state: the completed step ids, in the order they were
      marked. */
  class Guide {
    var completedSteps: seq<int>

    /** Only real step ids, each at most once. */
    ghost predicate Valid()
      reads this
    {
      NoDuplicates(completedSteps) && forall x :: x in completedSteps ==> x in StepIds
    }

    constructor ()
      ensures Valid() && completedSteps == []
    {
      completedSteps := [];
    }

    /** The button on step `stepNumber`. */
    method ToggleStep(stepNumber: int)
      requires Valid() && stepNumber in StepIds
      modifies this
      ensures Valid()
      ensures completedSteps == Toggle(old(completedSteps), stepNumber)
    {
      ToggleKeepsNoDuplicates(completedSteps, stepNumber);
      completedSteps := Toggle(completedSteps, stepNumber);
    }
  }

  /** `steps.length - completedSteps.length`. */
  function Remaining(completed: seq<int>): int {
    StepCount - |completed|
  }

  /** The progress bar's width in percent. */
  function ProgressPercent(completed: seq<int>): real {
    (|completed| as real / StepCount as real) * 100.0
  }

  /** Within the guide's invariant the count lies in 0..4, the remaining
      count is not negative, the bar stays within 100%, and "all setup
      complete" is shown exactly when every step has been marked. */
  lemma ProgressBounds(completed: seq<int>)
    requires NoDuplicates(completed) && forall x :: x in completed ==> x in StepIds
    ensures 0 <= |completed| <= StepCount
    ensures 0 <= Remaining(completed) <= StepCount
    ensures 0.0 <= ProgressPercent(completed) <= 100.0
    ensures |completed| == StepCount <==> forall id :: id in StepIds ==> id in completed
  {
    DistinctWithin(completed, StepIds);
    if forall id :: id in StepIds ==> id in completed {
      DistinctWithin(StepIds, completed);
    } else {
      var id :| id in StepIds && id !in completed;
      var k :| 0 <= k < |StepIds| && StepIds[k] == id;
      var others := Lists.Filter(StepIds, (x: int) => x != id);
      Lists.FilterShorter(StepIds, (x: int) => x != id, k);
      forall x | x in completed
        ensures x in others
      {
        Lists.FilterMembership(StepIds, (x: int) => x != id, x);
      }
      DistinctWithin(completed, others);
    }
  }
}
