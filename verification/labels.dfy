/** generate_num_labels: position i of the label vector holds i // num_photos_class, so
    the dataset is read as num_classes consecutive blocks of equal length. */
module Labels {
  import opened Errors
  import opened Blocks

  /** The model of generate_num_labels(numClasses, perClass). np.zeros refuses a negative
      total; position i gets Python's i // perClass. */
  function GenerateNumLabels(numClasses: int, perClass: int): (r: Result<seq<int>>)
    ensures r.Err? <==> numClasses * perClass < 0
    ensures r.Err? ==> r.error == NegativeDimensions
    ensures r.Ok? ==> |r.value| == numClasses * perClass
    ensures r.Ok? ==> forall i :: 0 <= i < |r.value| ==> perClass != 0 && IsFloorQuotient(i, perClass, r.value[i])
  {
    var total := numClasses * perClass;
    if total < 0 then Err(NegativeDimensions)
    else Ok(seq(total, i requires 0 <= i < total => FloorDiv(i, perClass)))
  }

  /** With blocks of positive length, position i carries class c exactly when i lies in
      the c-th block [c * perClass, (c + 1) * perClass). */
  lemma LabelMeansBlock(numClasses: int, perClass: int, i: int, c: int)
    requires numClasses >= 0 && perClass > 0
    requires 0 <= i < numClasses * perClass
    ensures GenerateNumLabels(numClasses, perClass).Ok?
    ensures GenerateNumLabels(numClasses, perClass).value[i] == c <==> c * perClass <= i < c * perClass + perClass
  {
    var labels := GenerateNumLabels(numClasses, perClass).value;
    if c * perClass <= i < c * perClass + perClass {
      FloorQuotientUnique(i, perClass, labels[i], c);
    }
  }

  /** Labels never decrease along the vector. */
  lemma LabelsSorted(numClasses: int, perClass: int, i: int, j: int)
    requires numClasses >= 0 && perClass > 0
    requires 0 <= i <= j < numClasses * perClass
    ensures GenerateNumLabels(numClasses, perClass).Ok?
    ensures GenerateNumLabels(numClasses, perClass).value[i] <= GenerateNumLabels(numClasses, perClass).value[j]
  {
    var labels := GenerateNumLabels(numClasses, perClass).value;
    assert IsFloorQuotient(i, perClass, labels[i]) && IsFloorQuotient(j, perClass, labels[j]);
    if labels[j] < labels[i] {
      MulMonotone(labels[j] + 1, labels[i], perClass);
    }
  }

  /** Every label names one of the classes 0 .. numClasses - 1. */
  lemma LabelsInRange(numClasses: int, perClass: int, i: int)
    requires numClasses >= 0 && perClass > 0
    requires 0 <= i < numClasses * perClass
    ensures GenerateNumLabels(numClasses, perClass).Ok?
    ensures 0 <= GenerateNumLabels(numClasses, perClass).value[i] < numClasses
  {
    var labels := GenerateNumLabels(numClasses, perClass).value;
    assert IsFloorQuotient(i, perClass, labels[i]);
    if labels[i] < 0 {
      MulMonotone(labels[i] + 1, 0, perClass);
    }
    if labels[i] >= numClasses {
      MulMonotone(numClasses, labels[i], perClass);
    }
  }

  /** A sequence holding one value throughout counts it |s| times and nothing else. */
  lemma {:induction false} ConstantCount(s: seq<int>, v: int, c: int)
    requires forall i :: 0 <= i < |s| ==> s[i] == v
    ensures multiset(s)[c] == if c == v then |s| else 0
  {
    if s != [] {
      var init := s[..|s| - 1];
      ConstantCount(init, v, c);
      assert s == init + [v];
    }
  }

  /** The first m blocks hold every class below m exactly perClass times. */
  lemma {:induction false} PrefixCounts(numClasses: int, perClass: int, m: nat, c: int)
    requires perClass > 0 && m <= numClasses
    ensures GenerateNumLabels(numClasses, perClass).Ok?
    ensures m * perClass <= numClasses * perClass
    ensures multiset(GenerateNumLabels(numClasses, perClass).value[..m * perClass])[c]
            == if 0 <= c < m then perClass else 0
  {
    MulMonotone(m, numClasses, perClass);
    var labels := GenerateNumLabels(numClasses, perClass).value;
    if m > 0 {
      PrefixCounts(numClasses, perClass, m - 1, c);
      var lo, hi := (m - 1) * perClass, m * perClass;
      assert hi == lo + perClass;
      var block := labels[lo..hi];
      forall i | 0 <= i < |block|
        ensures block[i] == m - 1
      {
        LabelMeansBlock(numClasses, perClass, lo + i, m - 1);
      }
      ConstantCount(block, m - 1, c);
      assert labels[..hi] == labels[..lo] + block;
    }
  }

  /** Every class occurs exactly perClass times; no other value occurs. */
  lemma ClassCounts(numClasses: int, perClass: int, c: int)
    requires numClasses >= 0 && perClass > 0
    ensures GenerateNumLabels(numClasses, perClass).Ok?
    ensures multiset(GenerateNumLabels(numClasses, perClass).value)[c]
            == if 0 <= c < numClasses then perClass else 0
  {
    var labels := GenerateNumLabels(numClasses, perClass).value;
    PrefixCounts(numClasses, perClass, numClasses, c);
    assert labels[..numClasses * perClass] == labels;
  }
}
