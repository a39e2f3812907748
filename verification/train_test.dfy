/** generate_train_test_masks: the test sequence is create_test_subset's result, unchanged;
    training is every position of [0, size) that occurs nowhere among the test values,
    in ascending order (np.in1d over np.arange(size), then np.where on the zeros). */
module TrainTest {
  import opened Errors
  import opened Blocks
  import opened TestSubset

  predicate StrictlyIncreasing(s: seq<int>) {
    forall i, j :: 0 <= i < j < |s| ==> s[i] < s[j]
  }

  /** Length of np.arange(size): empty for a non-positive size. */
  function Positions(size: int): nat {
    if size > 0 then size else 0
  }

  /** np.in1d(np.arange(size), test): whether each position occurs among the test values. */
  function Membership(size: int, test: seq<int>): seq<bool> {
    seq(Positions(size), p => p in test)
  }

  /** np.where(mask == 0)[0]: the positions where the mask is clear. */
  function Unmarked(mask: seq<bool>): (r: seq<int>)
    ensures StrictlyIncreasing(r)
    ensures forall x :: x in r <==> 0 <= x < |mask| && !mask[x]
  {
    if mask == [] then []
    else
      var last := |mask| - 1;
      var init := mask[..last];
      var u := Unmarked(init);
      assert forall x :: 0 <= x < last ==> init[x] == mask[x];
      assert forall i :: 0 <= i < |u| ==> u[i] in u;
      if mask[last] then u
      else
        AppendAbove(u, last);
        u + [last]
  }

  /** Appending a value above every element keeps a sequence strictly increasing. */
  lemma AppendAbove(s: seq<int>, x: int)
    requires StrictlyIncreasing(s)
    requires forall i :: 0 <= i < |s| ==> s[i] < x
    ensures StrictlyIncreasing(s + [x])
  {
  }

  /** The training positions for a given test sequence. */
  function Training(size: int, test: seq<int>): (r: seq<int>)
    ensures StrictlyIncreasing(r)
    ensures forall x :: x in r <==> 0 <= x < size && x !in test
  {
    Unmarked(Membership(size, test))
  }

  /** The pair generate_train_test_masks returns. */
  datatype Split = Split(training: seq<int>, test: seq<int>)

  /** The model of generate_train_test_masks(size, step, quota), with the generator's
      output as `draws`. */
  function GenerateTrainTestMasks(size: int, step: int, quota: int, draws: seq<seq<int>>): (r: Result<Split>)
    requires DrawsReached(size, step, quota) ==> ValidDraws(size, step, quota, draws)
    ensures r.Err? <==> !DrawsReached(size, step, quota)
    ensures r.Err? ==> r.error == (if step == 0 then ZeroStep else NegativeDimensions)
    ensures r.Ok? ==> r.value.test == CreateTestSubset(size, step, quota, draws).value
    ensures r.Ok? ==> StrictlyIncreasing(r.value.training)
    ensures r.Ok? ==> forall x :: x in r.value.training ==> 0 <= x < size && x !in r.value.test
    ensures r.Ok? ==> forall p :: 0 <= p < size ==> p in r.value.training || p in r.value.test
  {
    match CreateTestSubset(size, step, quota, draws)
    case Err(e) => Err(e)
    case Ok(test) => Ok(Split(Training(size, test), test))
  }

  /** The distinct test values that are positions of [0, size). */
  function TestedPositions(size: int, test: seq<int>): set<int> {
    set t | t in test && 0 <= t < size
  }

  /** The integers of [0, n). */
  function Below(n: int): (b: set<int>)
    ensures forall p :: p in b <==> 0 <= p < n
    decreases n
  {
    if n <= 0 then {} else Below(n - 1) + {n - 1}
  }

  lemma {:induction false} BelowCard(n: nat)
    ensures |Below(n)| == n
  {
    if n > 0 {
      BelowCard(n - 1);
      assert n - 1 !in Below(n - 1);
    }
  }

  /** A strictly increasing sequence holds as many distinct values as elements. */
  lemma {:induction false} IncreasingCard(s: seq<int>)
    requires StrictlyIncreasing(s)
    ensures |set x | x in s| == |s|
  {
    if s != [] {
      var init := s[..|s| - 1];
      IncreasingCard(init);
      assert (set x | x in s) == (set x | x in init) + {s[|s| - 1]};
      assert s[|s| - 1] !in init;
    }
  }

  /** A sequence holds at most as many distinct values as elements. */
  lemma {:induction false} DistinctCard(s: seq<int>)
    ensures |set x | x in s| <= |s|
  {
    if s != [] {
      var init := s[..|s| - 1];
      DistinctCard(init);
      assert (set x | x in s) == (set x | x in init) + {s[|s| - 1]};
    }
  }

  /** Training holds exactly the positions the test values miss, so its length is size
      less the number of distinct test values inside [0, size); duplicates and
      out-of-range test values do not shorten it. */
  lemma TrainingLength(size: int, test: seq<int>)
    ensures |Training(size, test)| == Positions(size) - |TestedPositions(size, test)|
    ensures |Training(size, test)| >= size - |test|
  {
    var r := Training(size, test);
    var n := Positions(size);
    IncreasingCard(r);
    BelowCard(n);
    var tested := TestedPositions(size, test);
    assert (set x | x in r) == Below(n) - tested;
    assert tested <= Below(n);
    assert |Below(n) - tested| == |Below(n)| - |tested|;
    var values := set x | x in test;
    assert tested <= values;
    assert |values| == |tested| + |values - tested|;
    DistinctCard(test);
  }

  /** A clear mask leaves every position unmarked. */
  lemma {:induction false} UnmarkedClear(mask: seq<bool>)
    requires forall p :: 0 <= p < |mask| ==> !mask[p]
    ensures Unmarked(mask) == seq(|mask|, p => p)
  {
    if mask != [] {
      var init := mask[..|mask| - 1];
      UnmarkedClear(init);
      assert Unmarked(mask) == seq(|init|, p => p) + [|init|];
    }
  }

  /** With no test draws per block the test sequence is empty and training is
      0, 1, ..., size - 1. */
  lemma NoQuotaTrainsOnEverything(size: int, step: int, draws: seq<seq<int>>)
    requires step != 0 && ValidDraws(size, step, 0, draws)
    ensures GenerateTrainTestMasks(size, step, 0, draws).Ok?
    ensures GenerateTrainTestMasks(size, step, 0, draws).value.test == []
    ensures GenerateTrainTestMasks(size, step, 0, draws).value.training == seq(Positions(size), p => p)
  {
    UnmarkedClear(Membership(size, []));
  }
}
