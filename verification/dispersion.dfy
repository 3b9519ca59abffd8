/**
 * `D4Model.get_atomic_c6`: the C6 coefficient of every pair of atoms, a double sum over their
 * reference states of weight times weight times the Casimir–Polder integral of the two
 * references' polarisabilities.
 */
module Dispersion {
  import opened Outcome
  import opened Sums
  import opened Transcendental
  import opened Tables
  import opened ChargeScaling
  import opened Vectorised
  import opened Quadrature
  import opened Polarizability
  import opened Weighting

  /** The first `n` frequency samples of reference `r` of element `z`. */
  function AlphaSamples(m: ExpPow, model: D4Model, t: RefTables, z: nat, r: nat, n: nat): (s: seq<real>)
    requires ValidTables(t) && z < NumElements && r < t.refn[z] && n <= Frequencies
    ensures |s| == n
    ensures forall k {:trigger ReferenceAlpha(m, model, t, z, r, k)} :: 0 <= k < n ==> s[k] == ReferenceAlpha(m, model, t, z, r, k)
  {
    if n == 0 then [] else AlphaSamples(m, model, t, z, r, n - 1) + [ReferenceAlpha(m, model, t, z, r, n - 1)]
  }

  /** The 23 frequency samples of reference `r` of element `z`: columns `23 * r` to `23 * r + 22` of an atom's row of `alpha`. */
  function AlphaSlice(m: ExpPow, model: D4Model, t: RefTables, z: nat, r: nat): (s: seq<real>)
    requires ValidTables(t) && z < NumElements && r < t.refn[z]
    ensures |s| == Frequencies
    ensures forall k {:trigger ReferenceAlpha(m, model, t, z, r, k)} :: 0 <= k < Frequencies ==> s[k] == ReferenceAlpha(m, model, t, z, r, k)
  {
    AlphaSamples(m, model, t, z, r, Frequencies)
  }

  /** `refc6 = THOPI * trapzd(...)` for reference `ra` of element `za` and reference `rb` of element `zb`. */
  function RefC6(m: ExpPow, model: D4Model, t: RefTables, za: nat, ra: nat, zb: nat, rb: nat): real
    requires ValidTables(t) && za < NumElements && zb < NumElements && ra < t.refn[za] && rb < t.refn[zb]
  {
    Thopi * CasimirPolder(AlphaSlice(m, model, t, za, ra), AlphaSlice(m, model, t, zb, rb))
  }

  /** One term of `dc6`: `gwvec[iref, iat] * gwvec[jref, jat] * refc6`. */
  function PairTerm(wa: real, wb: real, refc6: real): real
  {
    wa * wb * refc6
  }

  /** `gwvec` has a row for every reference any atom of the molecule has, and a column per atom. */
  ghost predicate WeightShape(t: RefTables, numbers: seq<nat>, gw: seq<seq<real>>)
    requires ValidTables(t) && ValidNumbers(numbers)
  {
    |gw| >= MaxRefOf(t, numbers) && forall r :: 0 <= r < |gw| ==> |gw[r]| == |numbers|
  }

  /** Row `ra` of the reference C6 table of elements `za` and `zb`: its first `n` columns. */
  function RefC6Row(m: ExpPow, model: D4Model, t: RefTables, za: nat, ra: nat, zb: nat, n: nat): (row: seq<real>)
    requires ValidTables(t) && za < NumElements && zb < NumElements && ra < t.refn[za] && n <= t.refn[zb]
    ensures |row| == n
    ensures forall rb {:trigger RefC6(m, model, t, za, ra, zb, rb)} :: 0 <= rb < n ==> row[rb] == RefC6(m, model, t, za, ra, zb, rb)
  {
    if n == 0 then [] else RefC6Row(m, model, t, za, ra, zb, n - 1) + [RefC6(m, model, t, za, ra, zb, n - 1)]
  }

  /** The first `n` rows of the table of `refc6` for every reference of `za` against every reference of `zb`. */
  function RefC6Table(m: ExpPow, model: D4Model, t: RefTables, za: nat, zb: nat, n: nat): (c: seq<seq<real>>)
    requires ValidTables(t) && za < NumElements && zb < NumElements && n <= t.refn[za]
    ensures |c| == n
    ensures forall ra :: 0 <= ra < n ==> c[ra] == RefC6Row(m, model, t, za, ra, zb, t.refn[zb])
  {
    if n == 0 then [] else RefC6Table(m, model, t, za, zb, n - 1) + [RefC6Row(m, model, t, za, n - 1, zb, t.refn[zb])]
  }

  /** The reference C6 table of the elements of atoms `a` and `b`. */
  function PairTable(m: ExpPow, model: D4Model, t: RefTables, numbers: seq<nat>, a: nat, b: nat): (c: seq<seq<real>>)
    requires ValidTables(t) && ValidNumbers(numbers) && a < |numbers| && b < |numbers|
    ensures |c| == t.refn[numbers[a]]
    ensures forall ra :: 0 <= ra < |c| ==> |c[ra]| == t.refn[numbers[b]]
  {
    RefC6Table(m, model, t, numbers[a], numbers[b], t.refn[numbers[a]])
  }

  /** Every row and column of the table `c` has a row of weights in `gw`, and that row covers atoms `a` and `b`. */
  ghost predicate Fits(gw: seq<seq<real>>, a: nat, b: nat, c: seq<seq<real>>)
  {
    && |c| <= |gw|
    && (forall ra :: 0 <= ra < |c| ==> |c[ra]| <= |gw|)
    && (forall r :: 0 <= r < |gw| ==> a < |gw[r]| && b < |gw[r]|)
  }

  /** The weights of a molecule fit the reference C6 table of any of its pairs. */
  lemma PairTableFits(m: ExpPow, model: D4Model, t: RefTables, numbers: seq<nat>, gw: seq<seq<real>>, a: nat, b: nat)
    requires ValidTables(t) && ValidNumbers(numbers) && WeightShape(t, numbers, gw)
    requires a < |numbers| && b < |numbers|
    ensures Fits(gw, a, b, PairTable(m, model, t, numbers, a, b))
  {
    var mref := MaxRefOf(t, numbers);
    assert t.refn[numbers[a]] <= mref && t.refn[numbers[b]] <= mref;
  }

  /** The `for jref` loop of reference `ra` of atom `a` over the table `c`: its first `p` terms, accumulated from the left. */
  function PairRow(gw: seq<seq<real>>, a: nat, b: nat, c: seq<seq<real>>, ra: nat, p: nat): real
    requires Fits(gw, a, b, c) && ra < |c| && p <= |c[ra]|
  {
    if p == 0 then 0.0 else PairRow(gw, a, b, c, ra, p - 1) + PairTerm(gw[ra][a], gw[p - 1][b], c[ra][p - 1])
  }

  /** The `for iref` loop of atoms `a` and `b` over the table `c`: its first `n` rows, accumulated from the left. */
  function PairRows(gw: seq<seq<real>>, a: nat, b: nat, c: seq<seq<real>>, n: nat): real
    requires Fits(gw, a, b, c) && n <= |c|
  {
    if n == 0 then 0.0 else PairRows(gw, a, b, c, n - 1) + PairRow(gw, a, b, c, n - 1, |c[n - 1]|)
  }

  /** `dc6` for atoms `a` and `b`: the double sum over the references of both atoms, `a`'s outside. */
  function C6Pair(m: ExpPow, model: D4Model, t: RefTables, numbers: seq<nat>, gw: seq<seq<real>>, a: nat, b: nat): real
    requires ValidTables(t) && ValidNumbers(numbers) && WeightShape(t, numbers, gw)
    requires a < |numbers| && b < |numbers|
  {
    var c := PairTable(m, model, t, numbers, a, b);
    PairTableFits(m, model, t, numbers, gw, a, b);
    PairRows(gw, a, b, c, |c|)
  }

  /** One more term of a row: the weight of reference `ra` of `a` times that of `p` of `b` times their `refc6`. */
  lemma PairRowStep(gw: seq<seq<real>>, a: nat, b: nat, c: seq<seq<real>>, ra: nat, p: nat, refc6: real)
    requires Fits(gw, a, b, c) && ra < |c| && p < |c[ra]|
    requires refc6 == c[ra][p]
    ensures ra < |gw| && p < |gw| && a < |gw[ra]| && b < |gw[p]|
    ensures PairRow(gw, a, b, c, ra, p + 1) == PairRow(gw, a, b, c, ra, p) + PairTerm(gw[ra][a], gw[p][b], refc6)
  {
  }

  /** The terms of the double sum over the table `c`, zero outside it. */
  function TableGrid(gw: seq<seq<real>>, a: nat, b: nat, c: seq<seq<real>>): (nat, nat) -> real
    requires Fits(gw, a, b, c)
  {
    (ra: nat, rb: nat) => if ra < |c| && rb < |c[ra]| then PairTerm(gw[ra][a], gw[rb][b], c[ra][rb]) else 0.0
  }

  lemma {:induction false} PairRowIsRowSum(gw: seq<seq<real>>, a: nat, b: nat, c: seq<seq<real>>, ra: nat, p: nat)
    requires Fits(gw, a, b, c) && ra < |c| && p <= |c[ra]|
    ensures PairRow(gw, a, b, c, ra, p) == RowSum(TableGrid(gw, a, b, c), ra, p)
  {
    if p > 0 {
      PairRowIsRowSum(gw, a, b, c, ra, p - 1);
    }
  }

  lemma {:induction false} PairRowsIsGridSum(gw: seq<seq<real>>, a: nat, b: nat, c: seq<seq<real>>, n: nat, cols: nat)
    requires Fits(gw, a, b, c) && n <= |c|
    requires forall ra :: 0 <= ra < |c| ==> |c[ra]| == cols
    ensures PairRows(gw, a, b, c, n) == GridSum(TableGrid(gw, a, b, c), n, cols)
  {
    if n > 0 {
      PairRowsIsGridSum(gw, a, b, c, n - 1, cols);
      PairRowIsRowSum(gw, a, b, c, n - 1, cols);
    }
  }

  /** The coefficient of a pair is the double sum of the grid of its reference terms. */
  lemma C6PairIsGridSum(m: ExpPow, model: D4Model, t: RefTables, numbers: seq<nat>, gw: seq<seq<real>>, a: nat, b: nat)
    requires ValidTables(t) && ValidNumbers(numbers) && WeightShape(t, numbers, gw)
    requires a < |numbers| && b < |numbers|
    ensures Fits(gw, a, b, PairTable(m, model, t, numbers, a, b))
    ensures C6Pair(m, model, t, numbers, gw, a, b) ==
      GridSum(TableGrid(gw, a, b, PairTable(m, model, t, numbers, a, b)), t.refn[numbers[a]], t.refn[numbers[b]])
  {
    PairTableFits(m, model, t, numbers, gw, a, b);
    PairRowsIsGridSum(gw, a, b, PairTable(m, model, t, numbers, a, b), t.refn[numbers[a]], t.refn[numbers[b]]);
  }

  /** The two weights of a term can be exchanged. */
  lemma PairTermSwap(wa: real, wb: real, refc6: real)
    ensures PairTerm(wa, wb, refc6) == PairTerm(wb, wa, refc6)
  {
  }

  /** The reference C6 does not depend on which reference comes first. */
  lemma RefC6Symmetric(m: ExpPow, model: D4Model, t: RefTables, za: nat, ra: nat, zb: nat, rb: nat)
    requires ValidTables(t) && za < NumElements && zb < NumElements && ra < t.refn[za] && rb < t.refn[zb]
    ensures RefC6(m, model, t, za, ra, zb, rb) == RefC6(m, model, t, zb, rb, za, ra)
  {
    CasimirPolderSymmetric(AlphaSlice(m, model, t, za, ra), AlphaSlice(m, model, t, zb, rb));
  }

  /** The reference C6 table of `(b, a)` is the transpose of that of `(a, b)`. */
  lemma PairTableTransposed(m: ExpPow, model: D4Model, t: RefTables, numbers: seq<nat>, a: nat, b: nat, ra: nat, rb: nat)
    requires ValidTables(t) && ValidNumbers(numbers) && a < |numbers| && b < |numbers|
    requires ra < t.refn[numbers[a]] && rb < t.refn[numbers[b]]
    ensures PairTable(m, model, t, numbers, b, a)[rb][ra] == PairTable(m, model, t, numbers, a, b)[ra][rb]
  {
    var za := numbers[a];
    var zb := numbers[b];
    RefC6Symmetric(m, model, t, za, ra, zb, rb);
    assert PairTable(m, model, t, numbers, a, b)[ra] == RefC6Row(m, model, t, za, ra, zb, t.refn[zb]);
    assert PairTable(m, model, t, numbers, b, a)[rb] == RefC6Row(m, model, t, zb, rb, za, t.refn[za]);
  }

  /** The C6 coefficient of a pair does not depend on the order of the two atoms. */
  lemma C6PairSymmetric(m: ExpPow, model: D4Model, t: RefTables, numbers: seq<nat>, gw: seq<seq<real>>, a: nat, b: nat)
    requires ValidTables(t) && ValidNumbers(numbers) && WeightShape(t, numbers, gw)
    requires a < |numbers| && b < |numbers|
    ensures C6Pair(m, model, t, numbers, gw, a, b) == C6Pair(m, model, t, numbers, gw, b, a)
  {
    C6PairIsGridSum(m, model, t, numbers, gw, a, b);
    C6PairIsGridSum(m, model, t, numbers, gw, b, a);
    var za := numbers[a];
    var zb := numbers[b];
    var cab := PairTable(m, model, t, numbers, a, b);
    var cba := PairTable(m, model, t, numbers, b, a);
    var f := TableGrid(gw, a, b, cab);
    var g := TableGrid(gw, b, a, cba);
    forall ra, rb | 0 <= ra < t.refn[za] && 0 <= rb < t.refn[zb]
      ensures g(rb, ra) == f(ra, rb)
    {
      PairTableTransposed(m, model, t, numbers, a, b, ra, rb);
      var refc6 := cab[ra][rb];
      assert f(ra, rb) == PairTerm(gw[ra][a], gw[rb][b], refc6);
      assert g(rb, ra) == PairTerm(gw[rb][b], gw[ra][a], refc6);
      PairTermSwap(gw[ra][a], gw[rb][b], refc6);
    }
    GridSumTranspose(f, g, t.refn[za], t.refn[zb]);
  }

  /** An atom whose element has no reference has no dispersion with any atom. */
  lemma C6PairWithoutReferences(m: ExpPow, model: D4Model, t: RefTables, numbers: seq<nat>, gw: seq<seq<real>>, a: nat, b: nat)
    requires ValidTables(t) && ValidNumbers(numbers) && WeightShape(t, numbers, gw)
    requires a < |numbers| && b < |numbers|
    requires t.refn[numbers[a]] == 0 || t.refn[numbers[b]] == 0
    ensures C6Pair(m, model, t, numbers, gw, a, b) == 0.0
  {
    C6PairIsGridSum(m, model, t, numbers, gw, a, b);
    if t.refn[numbers[b]] == 0 {
      GridSumNoColumns(TableGrid(gw, a, b, PairTable(m, model, t, numbers, a, b)), t.refn[numbers[a]]);
    }
  }

  /** A reference C6 is never negative, since the clipped polarisabilities are not. */
  lemma RefC6Nonnegative(m: ExpPow, model: D4Model, t: RefTables, za: nat, ra: nat, zb: nat, rb: nat)
    requires ValidTables(t) && za < NumElements && zb < NumElements && ra < t.refn[za] && rb < t.refn[zb]
    ensures RefC6(m, model, t, za, ra, zb, rb) >= 0.0
  {
    var sa := AlphaSlice(m, model, t, za, ra);
    var sb := AlphaSlice(m, model, t, zb, rb);
    forall k | 0 <= k < Frequencies
      ensures sa[k] >= 0.0 && sb[k] >= 0.0
    {
      assert sa[k] == ReferenceAlpha(m, model, t, za, ra, k);
      assert sb[k] == ReferenceAlpha(m, model, t, zb, rb, k);
    }
    CasimirPolderNonnegative(sa, sb);
    var c := CasimirPolder(sa, sb);
    assert Thopi > 0.0;
    assert Thopi * c >= 0.0;
  }

  /** A product of non-negative weights and a non-negative reference C6 is non-negative. */
  lemma PairTermNonnegative(wa: real, wb: real, refc6: real)
    requires wa >= 0.0 && wb >= 0.0 && refc6 >= 0.0
    ensures PairTerm(wa, wb, refc6) >= 0.0
  {
    var w := wa * wb;
    assert w >= 0.0;
    assert w * refc6 >= 0.0;
  }

  /** With non-negative weights every C6 coefficient is non-negative. */
  lemma C6PairNonnegative(m: ExpPow, model: D4Model, t: RefTables, numbers: seq<nat>, gw: seq<seq<real>>, a: nat, b: nat)
    requires ValidTables(t) && ValidNumbers(numbers) && WeightShape(t, numbers, gw)
    requires a < |numbers| && b < |numbers|
    requires forall r, i :: 0 <= r < |gw| && 0 <= i < |numbers| ==> gw[r][i] >= 0.0
    ensures C6Pair(m, model, t, numbers, gw, a, b) >= 0.0
  {
    C6PairIsGridSum(m, model, t, numbers, gw, a, b);
    var za := numbers[a];
    var zb := numbers[b];
    var c := PairTable(m, model, t, numbers, a, b);
    var f := TableGrid(gw, a, b, c);
    forall ra, rb | 0 <= ra < t.refn[za] && 0 <= rb < t.refn[zb]
      ensures f(ra, rb) >= 0.0
    {
      RefC6Nonnegative(m, model, t, za, ra, zb, rb);
      PairTermNonnegative(gw[ra][a], gw[rb][b], c[ra][rb]);
    }
    GridSumNonnegative(f, t.refn[za], t.refn[zb]);
  }

  /** `alpha[i, start : start + 23]` read out of the table. */
  method ReadSlice(alpha: array2<real>, i: nat, start: nat) returns (s: seq<real>)
    requires i < alpha.Length0 && start + Frequencies <= alpha.Length1
    ensures |s| == Frequencies
    ensures forall k :: 0 <= k < Frequencies ==> s[k] == alpha[i, start + k]
  {
    s := [];
    for k := 0 to Frequencies
      invariant |s| == k
      invariant forall j :: 0 <= j < k ==> s[j] == alpha[i, start + j]
    {
      s := s + [alpha[i, start + k]];
    }
  }

  /** The 23 entries of reference `r` read from atom `i`'s row of a filled `alpha` are that reference's slice. */
  lemma RowSliceIsAlphaSlice(alpha: array2<real>, m: ExpPow, model: D4Model, t: RefTables, numbers: seq<nat>, i: nat, r: nat, s: seq<real>)
    requires ValidTables(t) && ValidNumbers(numbers) && AlphaFilled(alpha, m, model, t, numbers)
    requires i < |numbers| && r < t.refn[numbers[i]]
    requires Frequencies * r + Frequencies <= alpha.Length1 && |s| == Frequencies
    requires forall k :: 0 <= k < Frequencies ==> s[k] == alpha[i, Frequencies * r + k]
    ensures s == AlphaSlice(m, model, t, numbers[i], r)
  {
    forall k | 0 <= k < Frequencies
      ensures s[k] == ReferenceAlpha(m, model, t, numbers[i], r, k)
    {
      AlphaEntryOfReference(m, model, t, numbers[i], r, k);
    }
  }

  /** `THOPI * trapzd(...)` on the slices of reference `iref` of atom `iat` and `jref` of atom `jat`. */
  method ReferenceC6(alpha: array2<real>, m: ExpPow, model: D4Model, t: RefTables, numbers: seq<nat>,
                     iat: nat, iref: nat, jat: nat, jref: nat) returns (refc6: real)
    requires ValidTables(t) && ValidNumbers(numbers) && AlphaFilled(alpha, m, model, t, numbers)
    requires iat < |numbers| && jat < |numbers|
    requires iref < t.refn[numbers[iat]] && jref < t.refn[numbers[jat]]
    ensures refc6 == RefC6(m, model, t, numbers[iat], iref, numbers[jat], jref)
  {
    ghost var mref := MaxRefOf(t, numbers);
    assert iref + 1 <= mref && jref + 1 <= mref;
    var sa := ReadSlice(alpha, iat, Frequencies * iref);
    var sb := ReadSlice(alpha, jat, Frequencies * jref);
    RowSliceIsAlphaSlice(alpha, m, model, t, numbers, iat, iref, sa);
    RowSliceIsAlphaSlice(alpha, m, model, t, numbers, jat, jref, sb);
    var c := Trapzd(sa, sb);
    refc6 := Thopi * c;
  }

  /** The `for jref` loop of reference `iref` of atom `iat` against atom `jat`, adding its terms to `dc6`. */
  method AccumulateRow(alpha: array2<real>, m: ExpPow, model: D4Model, t: RefTables, numbers: seq<nat>, gw: seq<seq<real>>,
                       iat: nat, jat: nat, iref: nat, start: real) returns (dc6: real)
    requires ValidTables(t) && ValidNumbers(numbers) && WeightShape(t, numbers, gw) && AlphaFilled(alpha, m, model, t, numbers)
    requires iat < |numbers| && jat < |numbers| && iref < t.refn[numbers[iat]]
    requires Fits(gw, iat, jat, PairTable(m, model, t, numbers, iat, jat))
    requires start == PairRows(gw, iat, jat, PairTable(m, model, t, numbers, iat, jat), iref)
    ensures dc6 == PairRows(gw, iat, jat, PairTable(m, model, t, numbers, iat, jat), iref + 1)
  {
    ghost var c := PairTable(m, model, t, numbers, iat, jat);
    PairTableFits(m, model, t, numbers, gw, iat, jat);
    assert c[iref] == RefC6Row(m, model, t, numbers[iat], iref, numbers[jat], t.refn[numbers[jat]]);
    dc6 := start;
    for jref := 0 to t.refn[numbers[jat]]
      invariant dc6 == start + PairRow(gw, iat, jat, c, iref, jref)
    {
      var refc6 := ReferenceC6(alpha, m, model, t, numbers, iat, iref, jat, jref);
      PairRowStep(gw, iat, jat, c, iref, jref, refc6);
      dc6 := dc6 + PairTerm(gw[iref][iat], gw[jref][jat], refc6);
    }
  }

  /** The two reference loops of the pair `(iat, jat)`, accumulating `dc6`. */
  method PairC6(alpha: array2<real>, m: ExpPow, model: D4Model, t: RefTables, numbers: seq<nat>, gw: seq<seq<real>>,
                iat: nat, jat: nat) returns (dc6: real)
    requires ValidTables(t) && ValidNumbers(numbers) && WeightShape(t, numbers, gw)
    requires AlphaFilled(alpha, m, model, t, numbers)
    requires iat < |numbers| && jat < |numbers|
    ensures dc6 == C6Pair(m, model, t, numbers, gw, iat, jat)
  {
    ghost var c := PairTable(m, model, t, numbers, iat, jat);
    PairTableFits(m, model, t, numbers, gw, iat, jat);
    dc6 := 0.0;
    for iref := 0 to t.refn[numbers[iat]]
      invariant dc6 == PairRows(gw, iat, jat, c, iref)
    {
      dc6 := AccumulateRow(alpha, m, model, t, numbers, gw, iat, jat, iref, dc6);
    }
  }

  /** The coefficient of every ordered pair of atoms, as a matrix. */
  ghost function C6Matrix(m: ExpPow, model: D4Model, t: RefTables, numbers: seq<nat>, gw: seq<seq<real>>): (cm: seq<seq<real>>)
    requires ValidTables(t) && ValidNumbers(numbers) && WeightShape(t, numbers, gw)
    ensures |cm| == |numbers| && forall a :: 0 <= a < |numbers| ==> |cm[a]| == |numbers|
    ensures forall a, b :: 0 <= a < |numbers| && 0 <= b < |numbers| ==> cm[a][b] == C6Pair(m, model, t, numbers, gw, a, b)
  {
    seq(|numbers|, a requires 0 <= a < |numbers| =>
      seq(|numbers|, b requires 0 <= b < |numbers| => C6Pair(m, model, t, numbers, gw, a, b)))
  }

  /** `c6` holds the entries of `cm` for every pair already visited, in either order, and zeros elsewhere. */
  ghost predicate C6Written(c6: array2<real>, cm: seq<seq<real>>, atom: nat, other: nat)
    reads c6
  {
    && c6.Length0 == |cm| == c6.Length1
    && (forall a :: 0 <= a < |cm| ==> |cm[a]| == |cm|)
    && forall a, b :: 0 <= a < |cm| && 0 <= b < |cm| ==>
         c6[a, b] == if Before(a, b, atom, other) || Before(b, a, atom, other) then cm[a][b] else 0.0
  }

  /** `c6[iat, jat] = dc6` and `c6[jat, iat] = dc6`, for a symmetric pair of entries of `cm`. */
  method WriteC6(c6: array2<real>, ghost cm: seq<seq<real>>, iat: nat, jat: nat, dc6: real)
    requires C6Written(c6, cm, iat, jat)
    requires iat < |cm| && jat < |cm|
    requires dc6 == cm[iat][jat] == cm[jat][iat]
    modifies c6
    ensures C6Written(c6, cm, iat, jat + 1)
  {
    c6[iat, jat] := dc6;
    c6[jat, iat] := dc6;
  }

  /** The loop over the partners `jat` of atom `iat`. */
  method FillC6Row(c6: array2<real>, alpha: array2<real>, m: ExpPow, model: D4Model, t: RefTables, numbers: seq<nat>,
                   gw: seq<seq<real>>, iat: nat, ghost cm: seq<seq<real>>)
    requires ValidTables(t) && ValidNumbers(numbers) && WeightShape(t, numbers, gw)
    requires AlphaFilled(alpha, m, model, t, numbers) && c6 != alpha
    requires iat < |numbers| && cm == C6Matrix(m, model, t, numbers, gw)
    requires C6Written(c6, cm, iat, 0)
    modifies c6
    ensures C6Written(c6, cm, iat + 1, 0)
  {
    for jat := 0 to |numbers|
      invariant C6Written(c6, cm, iat, jat)
    {
      var dc6 := PairC6(alpha, m, model, t, numbers, gw, iat, jat);
      C6PairSymmetric(m, model, t, numbers, gw, iat, jat);
      WriteC6(c6, cm, iat, jat, dc6);
    }
  }

  /**
   * `get_atomic_c6(numbers, gwvec)` with each `trapzd` given the 23 samples of a reference: the
   * polarisabilities raise for a molecule without atoms; otherwise `c6[a, b]` is the coefficient
   * of the pair `(a, b)` for every pair.
   */
  method GetAtomicC6(m: ExpPow, model: D4Model, t: RefTables, numbers: seq<nat>, gw: seq<seq<real>>)
    returns (err: Option<Error>, c6: array2<real>)
    requires ValidTables(t) && ValidNumbers(numbers) && WeightShape(t, numbers, gw)
    ensures fresh(c6)
    ensures err == if |numbers| == 0 then Some(EmptyMolecule) else None
    ensures err.None? ==> c6.Length0 == |numbers| == c6.Length1
    ensures err.None? ==> forall a, b :: 0 <= a < |numbers| && 0 <= b < |numbers| ==> c6[a, b] == C6Pair(m, model, t, numbers, gw, a, b)
    ensures err.None? ==> forall a, b :: 0 <= a < |numbers| && 0 <= b < |numbers| ==> c6[a, b] == c6[b, a]
  {
    var alpha;
    err, alpha := SetRefAlpha(m, model, t, numbers);
    if err.Some? {
      c6 := new real[0, 0];
      return;
    }
    ghost var cm := C6Matrix(m, model, t, numbers, gw);
    c6 := new real[|numbers|, |numbers|]((a, b) => 0.0);
    for iat := 0 to |numbers|
      invariant AlphaFilled(alpha, m, model, t, numbers) && c6 != alpha
      invariant C6Written(c6, cm, iat, 0)
    {
      FillC6Row(c6, alpha, m, model, t, numbers, gw, iat, cm);
    }
    forall a, b | 0 <= a < |numbers| && 0 <= b < |numbers|
      ensures c6[a, b] == c6[b, a]
    {
      C6PairSymmetric(m, model, t, numbers, gw, a, b);
    }
  }

  /**
   * `get_atomic_c6` as written. Its `_set_refalpha_eeq` raises the `TypeError` of the written
   * `zeta` when some reference of some atom has a non-positive `refsq`. Then `alpha[iat][23 * iref]`
   * is a single entry, a 0-dimensional tensor, so the first `trapzd` call raises when it indexes
   * it; that call happens as soon as some atom has a reference (the pair of that atom with itself at
   * the latest). Without any reference the result is the zero matrix.
   */
  function GetAtomicC6AsWritten(m: ExpPow, model: D4Model, t: RefTables, numbers: seq<nat>): (r: Result<seq<seq<real>>>)
    requires ValidTables(t) && ValidNumbers(numbers)
    ensures r.Ok? ==> |numbers| > 0 && forall i :: 0 <= i < |numbers| ==> t.refn[numbers[i]] == 0
    ensures r.Ok? ==> |r.value| == |numbers| && forall a :: 0 <= a < |numbers| ==> r.value[a] == seq(|numbers|, b => 0.0)
    ensures r == Err(FloatExponent) <==> |numbers| > 0 && AlphaAsWrittenRaises(m, model, t, numbers)
  {
    if |numbers| == 0 then Err(EmptyMolecule)
    else if AlphaAsWrittenRaises(m, model, t, numbers) then Err(FloatExponent)
    else if exists i :: 0 <= i < |numbers| && t.refn[numbers[i]] > 0 then Err(ZeroDimIndex)
    else Ok(seq(|numbers|, a => seq(|numbers|, b => 0.0)))
  }

  /**
   * A single hydrogen atom with the model's own tables: the written `get_atomic_c6` raises, with
   * the index error once both references of hydrogen have a positive `refsq`, while the corrected
   * coefficient is the weighted double sum over those two references.
   */
  lemma GetAtomicC6AsWrittenFailsOnHydrogen(m: ExpPow, model: D4Model, t: RefTables)
    requires ValidTables(t) && Standard(t)
    ensures t.refn[1] == 2
    ensures GetAtomicC6AsWritten(m, model, t, [1]).Err?
    ensures t.refsq[1][0] > 0.0 && t.refsq[1][1] > 0.0 ==> GetAtomicC6AsWritten(m, model, t, [1]) == Err(ZeroDimIndex)
  {
    RefnShape();
    var numbers := [1];
    assert t.refn[numbers[0]] > 0;
  }

  /**
   * With the model's own tables, the written version raises for every molecule with an atom other
   * than the dummy element: with the `TypeError` of `zeta` or with the index error.
   */
  lemma GetAtomicC6AsWrittenFails(m: ExpPow, model: D4Model, t: RefTables, numbers: seq<nat>, i: nat)
    requires ValidTables(t) && Standard(t) && ValidNumbers(numbers)
    requires i < |numbers| && numbers[i] != 0
    ensures GetAtomicC6AsWritten(m, model, t, numbers).Err?
    ensures !AlphaAsWrittenRaises(m, model, t, numbers) ==> GetAtomicC6AsWritten(m, model, t, numbers) == Err(ZeroDimIndex)
  {
    StandardRefn(t);
  }

  /** The weights `weight_references` returns fit `get_atomic_c6`. */
  lemma WeightsFitC6(m: ExpPow, model: D4Model, t: RefTables, numbers: seq<nat>, cn: Option<seq<real>>, q: Option<seq<real>>,
                     exceptional: seq<bool>)
    requires ValidArguments(t, numbers, cn, q, exceptional)
    requires Weights(m, model, t, numbers, cn, q, exceptional).Ok?
    ensures WeightShape(t, numbers, Weights(m, model, t, numbers, cn, q, exceptional).value)
  {
  }

  /**
   * With sound exponentials, the C6 coefficients computed from the weights `weight_references`
   * returns are non-negative for every pair of atoms.
   */
  lemma C6OfWeightsNonnegative(m: ExpPow, model: D4Model, t: RefTables, numbers: seq<nat>, cn: Option<seq<real>>, q: Option<seq<real>>,
                               exceptional: seq<bool>, a: nat, b: nat)
    requires Sound(m) && ValidArguments(t, numbers, cn, q, exceptional)
    requires Weights(m, model, t, numbers, cn, q, exceptional).Ok?
    requires a < |numbers| && b < |numbers|
    ensures WeightShape(t, numbers, Weights(m, model, t, numbers, cn, q, exceptional).value)
    ensures C6Pair(m, model, t, numbers, Weights(m, model, t, numbers, cn, q, exceptional).value, a, b) >= 0.0
  {
    var gw := Weights(m, model, t, numbers, cn, q, exceptional).value;
    forall r, i | 0 <= r < |gw| && 0 <= i < |numbers|
      ensures gw[r][i] >= 0.0
    {
      WeightsNonnegative(m, model, t, numbers, cn, q, exceptional, r, i);
    }
    C6PairNonnegative(m, model, t, numbers, gw, a, b);
  }
}
