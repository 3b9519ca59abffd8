/** The immutable reference data of the D4 model, indexed by atomic number, and its configuration. */
module Tables {

  /** Atomic numbers 0 to 86 have an entry in the reference tables. */
  const NumElements: nat := 87

  /** Reference states per element, one row of the table per source line; entry 0 is the dummy element. */
  const RefnRow0: seq<nat> := [0, 2, 1, 3, 4, 5, 7, 5, 4, 2, 1, 3, 4, 4, 5, 4, 3, 2, 1, 3, 4, 4]
  const RefnRow1: seq<nat> := [4, 4, 4, 3, 3, 4, 4, 2, 2, 3, 5, 4, 3, 2, 1, 3, 4, 3, 4, 4, 4, 3]
  const RefnRow2: seq<nat> := [3, 4, 3, 2, 2, 4, 5, 4, 3, 2, 1, 3, 4, 3, 1, 2, 2, 2, 2, 2, 2, 2]
  const RefnRow3: seq<nat> := [2, 2, 2, 2, 2, 2, 4, 4, 3, 3, 3, 5, 3, 2, 2, 4, 5, 4, 3, 2, 1]
  const Refn: seq<nat> := RefnRow0 + RefnRow1 + RefnRow2 + RefnRow3

  /** Width of the padded per-element reference axis of the archive's tables. */
  const MaxRef: nat := 7

  /** Number of imaginary frequencies at which polarisabilities are sampled. */
  const Frequencies: nat := 23

  /** `3 / π`, the prefactor of the Casimir–Polder integral. */
  const Thopi: real := 3.0 / 3.141592653589793238462643383279502884197

  /** Every count in a row of `Refn` after the dummy element lies between 1 and `MaxRef`. */
  predicate CountsInRange(row: seq<nat>, from: nat)
  {
    forall z :: from <= z < |row| ==> 1 <= row[z] <= MaxRef
  }

  /** The lengths of the four rows and the range of every count in them. */
  lemma RefnRowsInRange()
    ensures |RefnRow0| == 22 && |RefnRow1| == 22 && |RefnRow2| == 22 && |RefnRow3| == 21
    ensures RefnRow0[0] == 0 && CountsInRange(RefnRow0, 1)
    ensures CountsInRange(RefnRow1, 0) && CountsInRange(RefnRow2, 0) && CountsInRange(RefnRow3, 0)
  {
    assert CountsInRange(RefnRow0, 1);
    assert CountsInRange(RefnRow1, 0);
    assert CountsInRange(RefnRow2, 0);
    assert CountsInRange(RefnRow3, 0);
  }

  /** `Refn` has one entry per element, every count fits the padded axis, and only element 0 has none. */
  lemma RefnShape()
    ensures |Refn| == NumElements
    ensures forall z :: 0 <= z < NumElements ==> Refn[z] <= MaxRef
    ensures Refn[0] == 0
    ensures forall z :: 1 <= z < NumElements ==> Refn[z] >= 1
    ensures Refn[6] == MaxRef && Refn[1] == 2
  {
    RefnRowsInRange();
    forall z | 0 <= z < NumElements
      ensures (z == 0 || 1 <= Refn[z]) && Refn[z] <= MaxRef
    {
      if z < 22 {
        assert Refn[z] == RefnRow0[z];
      } else if z < 44 {
        assert Refn[z] == RefnRow1[z - 22];
      } else if z < 66 {
        assert Refn[z] == RefnRow2[z - 44];
      } else {
        assert Refn[z] == RefnRow3[z - 66];
      }
    }
  }

  /** The configurable parameters of `D4Model` (charge scaling height and steepness, CN weighting factor). */
  datatype D4Model = D4Model(ga: real, gc: real, wf: real)

  const DefaultModel: D4Model := D4Model(3.0, 2.0, 6.0)

  /**
   * The arrays loaded from the parameter archive and the per-element constants `zeff` and `gam`;
   * rows are indexed by atomic number, columns of the reference tables by reference state.
   */
  datatype RefTables = RefTables(
    refn: seq<nat>,             // reference states per element: the constant `Refn` (see `Standard`)
    refc: seq<seq<int>>,        // multiplicity code of each reference; 0 marks padding
    refcn: seq<seq<real>>,      // reference coordination numbers
    refq: seq<seq<real>>,       // reference charges used by the weighting
    refsys: seq<seq<int>>,      // secondary element of each reference
    refsq: seq<seq<real>>,      // reference charges used for the polarisabilities
    refascale: seq<seq<real>>,
    refscount: seq<seq<real>>,
    refalpha: seq<seq<real>>,   // Frequencies values per reference, laid out as 23 * iref + k
    secscale: seq<real>,
    secalpha: seq<seq<real>>,   // Frequencies values per secondary element
    zeff: seq<real>,            // effective nuclear charges
    gam: seq<real>              // chemical hardnesses
  )

  /**
   * The shape of the archive: every table has a row per element, every reference row has `MaxRef`
   * entries (`Frequencies` per reference for `refalpha`), the padding is exactly where `refc` is 0,
   * and every secondary element is an atomic number.
   */
  ghost predicate ValidTables(t: RefTables)
  {
    && |t.refn| == NumElements
    && |t.refc| == NumElements && |t.refcn| == NumElements && |t.refq| == NumElements
    && |t.refsys| == NumElements && |t.refsq| == NumElements && |t.refascale| == NumElements
    && |t.refscount| == NumElements && |t.refalpha| == NumElements
    && |t.secscale| == NumElements && |t.secalpha| == NumElements
    && |t.zeff| == NumElements && |t.gam| == NumElements
    && (forall z :: 0 <= z < NumElements ==>
          && |t.refc[z]| == MaxRef && |t.refcn[z]| == MaxRef && |t.refq[z]| == MaxRef
          && |t.refsys[z]| == MaxRef && |t.refsq[z]| == MaxRef && |t.refascale[z]| == MaxRef
          && |t.refscount[z]| == MaxRef && |t.refalpha[z]| == Frequencies * MaxRef
          && t.refn[z] <= MaxRef)
    && (forall z, r :: 0 <= z < NumElements && 0 <= r < MaxRef ==> (t.refc[z][r] > 0 <==> r < t.refn[z]))
    && (forall z, r :: 0 <= z < NumElements && 0 <= r < t.refn[z] ==> 0 <= t.refsys[z][r] < NumElements)
    && (forall s :: 0 <= s < NumElements ==> |t.secalpha[s]| == Frequencies)
  }

  /** The tables use the reference counts of the D4 model itself. */
  ghost predicate Standard(t: RefTables)
  {
    t.refn == Refn
  }

  /** With the model's own counts, the dummy element 0 has no reference and every real element has one. */
  lemma StandardRefn(t: RefTables)
    requires ValidTables(t) && Standard(t)
    ensures t.refn[0] == 0
    ensures forall z :: 1 <= z < NumElements ==> t.refn[z] >= 1
  {
    RefnShape();
  }

  /** Every atomic number of the molecule has an entry in the tables. */
  ghost predicate ValidNumbers(numbers: seq<nat>)
  {
    forall i :: 0 <= i < |numbers| ==> numbers[i] < NumElements
  }

  /** `torch.max(refn[numbers])`: the widest reference axis the molecule needs (0 for no atoms). */
  function MaxRefOf(t: RefTables, numbers: seq<nat>): (r: nat)
    requires ValidTables(t) && ValidNumbers(numbers)
    ensures forall i :: 0 <= i < |numbers| ==> t.refn[numbers[i]] <= r
    ensures |numbers| > 0 ==> exists i :: 0 <= i < |numbers| && t.refn[numbers[i]] == r
    ensures r <= MaxRef
  {
    if |numbers| == 0 then 0
    else
      var init := numbers[..|numbers| - 1];
      var m := MaxRefOf(t, init);
      assert forall i :: 0 <= i < |init| ==> init[i] == numbers[i];
      var last := t.refn[numbers[|numbers| - 1]];
      if last > m then last else m
  }
}
