/** The year-to-date recoverable amounts of an EPS (RecoverableAmountsYtd.cs). Amounts are
    C# `decimal`s, modelled exactly as reals. */
module RecoverableAmounts {

  /** `RecoverableAmountsYtd`: the tax month and the eleven amounts the class declares. */
  datatype RecoverableAmountsYtd = RecoverableAmountsYtd(
    taxMonth: string,
    smpRecovered: real,
    sppRecovered: real,
    sapRecovered: real,
    shppRecovered: real,
    spbpRecovered: real,
    nicCompensationOnSmp: real,
    nicCompensationOnSpp: real,
    nicCompensationOnSap: real,
    nicCompensationOnShpp: real,
    nicCompensationOnSpbp: real,
    cisDeductionsSuffered: real)

  /** The eleven amounts, in declaration order. */
  function Amounts(ra: RecoverableAmountsYtd): (s: seq<real>)
    ensures |s| == 11
  {
    [ ra.smpRecovered, ra.sppRecovered, ra.sapRecovered, ra.shppRecovered, ra.spbpRecovered,
      ra.nicCompensationOnSmp, ra.nicCompensationOnSpp, ra.nicCompensationOnSap,
      ra.nicCompensationOnShpp, ra.nicCompensationOnSpbp, ra.cisDeductionsSuffered ]
  }

  /** `AreAllValuesZero` as written: the eleven amounts are added and the total compared
      with zero. Eleven zero amounts always pass it. */
  predicate AreAllValuesZero(ra: RecoverableAmountsYtd)
    ensures EveryAmountIsZero(ra) ==> AreAllValuesZero(ra)
  {
    (ra.smpRecovered + ra.sppRecovered + ra.sapRecovered + ra.shppRecovered + ra.spbpRecovered
     + ra.nicCompensationOnSmp + ra.nicCompensationOnSpp + ra.nicCompensationOnSap
     + ra.nicCompensationOnShpp + ra.nicCompensationOnSpbp + ra.cisDeductionsSuffered) == 0.0
  }

  /** The sum of a list of amounts. */
  function Sum(s: seq<real>): real {
    if s == [] then 0.0 else s[0] + Sum(s[1..])
  }

  /** Every amount in the list is zero. */
  predicate AllZero(s: seq<real>) {
    forall k :: 0 <= k < |s| ==> s[k] == 0.0
  }

  /** A list of non-negative amounts sums to zero exactly when every amount is zero. */
  lemma {:induction false} NonNegativeSumZeroIffAllZero(s: seq<real>)
    requires forall k :: 0 <= k < |s| ==> s[k] >= 0.0
    ensures Sum(s) >= 0.0
    ensures Sum(s) == 0.0 <==> AllZero(s)
  {
    if s != [] {
      NonNegativeSumZeroIffAllZero(s[1..]);
      assert forall k :: 1 <= k < |s| ==> s[k] == s[1..][k - 1];
    }
  }

  /** The flag is the sum test over the eleven amounts. */
  lemma AreAllValuesZeroIsSumTest(ra: RecoverableAmountsYtd)
    ensures AreAllValuesZero(ra) <==> Sum(Amounts(ra)) == 0.0
  {
    var s := Amounts(ra);
    assert Sum(s[10..]) == ra.cisDeductionsSuffered;
    assert Sum(s[9..]) == ra.nicCompensationOnSpbp + Sum(s[10..]);
    assert Sum(s[8..]) == ra.nicCompensationOnShpp + Sum(s[9..]);
    assert Sum(s[7..]) == ra.nicCompensationOnSap + Sum(s[8..]);
    assert Sum(s[6..]) == ra.nicCompensationOnSpp + Sum(s[7..]);
    assert Sum(s[5..]) == ra.nicCompensationOnSmp + Sum(s[6..]);
    assert Sum(s[4..]) == ra.spbpRecovered + Sum(s[5..]);
    assert Sum(s[3..]) == ra.shppRecovered + Sum(s[4..]);
    assert Sum(s[2..]) == ra.sapRecovered + Sum(s[3..]);
    assert Sum(s[1..]) == ra.sppRecovered + Sum(s[2..]);
  }

  /** When no amount is negative, the flag is true exactly when every amount is zero. */
  lemma NonNegativeAmountsZeroIffAllZero(ra: RecoverableAmountsYtd)
    requires forall k :: 0 <= k < 11 ==> Amounts(ra)[k] >= 0.0
    ensures AreAllValuesZero(ra) <==> AllZero(Amounts(ra))
  {
    AreAllValuesZeroIsSumTest(ra);
    NonNegativeSumZeroIffAllZero(Amounts(ra));
  }

  /** All amounts zero gives true; exactly one non-zero amount gives false. */
  lemma ZeroAndSingleNonZero(ra: RecoverableAmountsYtd, k: int)
    requires 0 <= k < 11
    ensures AllZero(Amounts(ra)) ==> AreAllValuesZero(ra)
    ensures Amounts(ra)[k] != 0.0 && (forall j :: 0 <= j < 11 && j != k ==> Amounts(ra)[j] == 0.0) ==>
              !AreAllValuesZero(ra)
  {
    AreAllValuesZeroIsSumTest(ra);
    var s := Amounts(ra);
    if AllZero(s) {
      ZeroSum(s);
    }
    if s[k] != 0.0 && (forall j :: 0 <= j < 11 && j != k ==> s[j] == 0.0) {
      SingleNonZeroSum(s, k);
    }
  }

  /** A list of zeros sums to zero. */
  lemma {:induction false} ZeroSum(s: seq<real>)
    requires AllZero(s)
    ensures Sum(s) == 0.0
  {
    if s != [] {
      assert AllZero(s[1..]) by {
        forall j | 0 <= j < |s| - 1 ensures s[1..][j] == 0.0 { assert s[1..][j] == s[j + 1]; }
      }
      ZeroSum(s[1..]);
    }
  }

  /** A list that is zero except at `k` sums to the amount at `k`. */
  lemma {:induction false} SingleNonZeroSum(s: seq<real>, k: int)
    requires 0 <= k < |s|
    requires forall j :: 0 <= j < |s| && j != k ==> s[j] == 0.0
    ensures Sum(s) == s[k]
  {
    if k == 0 {
      assert AllZero(s[1..]) by {
        forall j | 0 <= j < |s| - 1 ensures s[1..][j] == 0.0 { assert s[1..][j] == s[j + 1]; }
      }
      ZeroSum(s[1..]);
    } else {
      assert forall j :: 0 <= j < |s| - 1 && j != k - 1 ==> s[1..][j] == s[j + 1];
      SingleNonZeroSum(s[1..], k - 1);
    }
  }

  /** The tax month plays no part in the flag. */
  lemma TaxMonthIgnored(ra: RecoverableAmountsYtd, taxMonth: string)
    ensures AreAllValuesZero(ra.(taxMonth := taxMonth)) == AreAllValuesZero(ra)
  {
  }

  /** The documentation promises "all values are zero", but amounts that cancel out also
      make the sum test true: 1 SMP recovered and -1 SPP recovered. */
  lemma CancellingAmountsReportZero()
    ensures var ra := RecoverableAmountsYtd("1", 1.0, -1.0, 0.0, 0.0, 0.0, 0.0, 0.0, 0.0, 0.0, 0.0, 0.0);
            AreAllValuesZero(ra) && !AllZero(Amounts(ra))
  {
    var ra := RecoverableAmountsYtd("1", 1.0, -1.0, 0.0, 0.0, 0.0, 0.0, 0.0, 0.0, 0.0, 0.0, 0.0);
    assert Amounts(ra)[0] == 1.0;
  }

  /** The check the documentation describes: every amount is zero. */
  predicate EveryAmountIsZero(ra: RecoverableAmountsYtd) {
    && ra.smpRecovered == 0.0 && ra.sppRecovered == 0.0 && ra.sapRecovered == 0.0
    && ra.shppRecovered == 0.0 && ra.spbpRecovered == 0.0
    && ra.nicCompensationOnSmp == 0.0 && ra.nicCompensationOnSpp == 0.0 && ra.nicCompensationOnSap == 0.0
    && ra.nicCompensationOnShpp == 0.0 && ra.nicCompensationOnSpbp == 0.0
    && ra.cisDeductionsSuffered == 0.0
  }

  /** The corrected check holds exactly when no amount carries information; it implies the
      sum test, and the two agree whenever no amount is negative. */
  lemma EveryAmountIsZeroMeansNoInformation(ra: RecoverableAmountsYtd)
    ensures EveryAmountIsZero(ra) <==> AllZero(Amounts(ra))
    ensures EveryAmountIsZero(ra) ==> AreAllValuesZero(ra)
    ensures (forall k :: 0 <= k < 11 ==> Amounts(ra)[k] >= 0.0) ==>
              (EveryAmountIsZero(ra) <==> AreAllValuesZero(ra))
  {
    var s := Amounts(ra);
    if EveryAmountIsZero(ra) {
      assert AllZero(s);
    }
    if AllZero(s) {
      assert s[0] == 0.0 && s[1] == 0.0 && s[2] == 0.0 && s[3] == 0.0 && s[4] == 0.0 && s[5] == 0.0;
      assert s[6] == 0.0 && s[7] == 0.0 && s[8] == 0.0 && s[9] == 0.0 && s[10] == 0.0;
    }
    if forall k :: 0 <= k < 11 ==> s[k] >= 0.0 {
      NonNegativeAmountsZeroIffAllZero(ra);
    }
  }
}
