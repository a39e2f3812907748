/** The split and labels under the parameters the experiment uses by default: 17 classes
    of 80 photos, 4 test photos drawn per class. */
module Experiment {
  import opened Errors
  import opened Blocks
  import opened TestSubset
  import opened TrainTest
  import opened Labels

  const Classes := 17
  const PhotosPerClass := 80
  const TestPerClass := 4

  /** Under the defaults each draw window is exactly its class's block: the test sequence
      holds 4 positions per class, test element t is a photo of class t / 4, every test
      value is a valid position, and training omits exactly the distinct test values. */
  lemma DefaultSplit(draws: seq<seq<int>>)
    requires ValidDraws(Classes * PhotosPerClass, PhotosPerClass, TestPerClass, draws)
    ensures var r := GenerateTrainTestMasks(Classes * PhotosPerClass, PhotosPerClass, TestPerClass, draws);
      && r.Ok?
      && |r.value.test| == Classes * TestPerClass
      && (forall t :: 0 <= t < |r.value.test| ==>
            && 0 <= r.value.test[t] < Classes * PhotosPerClass
            && GenerateNumLabels(Classes, PhotosPerClass).value[r.value.test[t]] == t / TestPerClass)
      && |r.value.training| == Classes * PhotosPerClass - |set x | x in r.value.test|
  {
    var size := Classes * PhotosPerClass;
    AlignedDrawsBelowSizeIff(Classes, PhotosPerClass);
    DrawsBelowSize(size, PhotosPerClass, TestPerClass, draws);
    var r := GenerateTrainTestMasks(size, PhotosPerClass, TestPerClass, draws);
    var test := r.value.test;
    forall t | 0 <= t < |test|
      ensures GenerateNumLabels(Classes, PhotosPerClass).value[test[t]] == t / TestPerClass
    {
      assert test[t] in test;
      assert InWindow(PhotosPerClass, t / TestPerClass, test[t]);
      LabelMeansBlock(Classes, PhotosPerClass, test[t], t / TestPerClass);
    }
    TrainingLength(size, test);
    assert TestedPositions(size, test) == set x | x in test;
  }

  /** The default label vector: 1360 labels, the first 80 are class 0 and the last 80
      are class 16. */
  lemma DefaultLabels()
    ensures var r := GenerateNumLabels(Classes, PhotosPerClass);
      && r.Ok?
      && |r.value| == 1360
      && (forall i :: 0 <= i < 80 ==> r.value[i] == 0)
      && (forall i :: 1280 <= i < 1360 ==> r.value[i] == 16)
  {
    forall i | 0 <= i < 80 {
      LabelMeansBlock(Classes, PhotosPerClass, i, 0);
    }
    forall i | 1280 <= i < 1360 {
      LabelMeansBlock(Classes, PhotosPerClass, i, 16);
    }
  }

  /** Repeated draws are kept in the test sequence but remove one training position only,
      so training and test together are longer than the dataset. */
  lemma DuplicateDrawsKept()
    ensures var r := GenerateTrainTestMasks(160, 80, 2, [[7, 7], [90, 91]]);
      && r.Ok?
      && r.value.test == [7, 7, 90, 91]
      && |r.value.training| == 157
      && |r.value.training| + |r.value.test| == 161
  {
    AlignedDrawsBelowSizeIff(2, 80);
    var draws := [[7, 7], [90, 91]];
    assert ValidDraws(160, 80, 2, draws);
    var test := GenerateTrainTestMasks(160, 80, 2, draws).value.test;
    assert test == Concat(draws) == [7, 7, 90, 91];
    TrainingLength(160, test);
    assert TestedPositions(160, test) == {7, 90, 91};
  }

  /** With blocks of 5 the window still spans 80 values, so a valid draw for 10 positions
      can return position 79, which lies outside the dataset and removes nothing from
      training. */
  lemma SmallBlocksDrawPastSize()
    ensures ValidDraws(10, 5, 1, [[79], [6]])
    ensures var r := GenerateTrainTestMasks(10, 5, 1, [[79], [6]]);
      && r.Ok?
      && r.value.test == [79, 6]
      && |r.value.training| == 9
  {
    AlignedDrawsBelowSizeIff(2, 5);
    var draws := [[79], [6]];
    assert ValidDraws(10, 5, 1, draws);
    var test := GenerateTrainTestMasks(10, 5, 1, draws).value.test;
    assert test == Concat(draws) == [79, 6];
    TrainingLength(10, test);
    assert TestedPositions(10, test) == {6};
  }

  /** When size is not a whole number of blocks, range still visits the trailing partial
      block: 100 positions in blocks of 80 give two groups, and the second may reach 159. */
  lemma PartialBlockVisited()
    ensures BlockCount(100, 80) == 2
    ensures ValidDraws(100, 80, 1, [[3], [159]])
    ensures GenerateTrainTestMasks(100, 80, 1, [[3], [159]]).value.test == [3, 159]
  {
    assert Visits(100, 80, 1) && !Visits(100, 80, 2);
    assert Concat([[3], [159]]) == [3, 159];
  }
}
