/** The start-up check of the upload and multipart limits. */
module UploadLimits {

  const S3_MAX_PARTS: int := 10_000

  datatype Settings = Settings(
    ceiling: int, tierCaps: seq<int>, partSize: int, threshold: int,
    urlTtl: int, largeUrlTtl: int)

  datatype Verdict =
    | Accepted
    | CeilingNotPositive
    | TierNotPositive(tier: nat)
    | TierAboveCeiling(tier: nat)
    | PartSizeNotPositive
    | ThresholdNotPositive
    | ThresholdAboveCeiling
    | TooManyParts(parts: int, required: int)
    | TtlNotPositive

  /** `-(-a // b)` on a positive divisor. */
  function CeilDiv(a: int, b: int): int
    requires b > 0
  {
    -((-a) / b)
  }

  /** The loop over the tier caps, in order. */
  function CheckTiers(s: Settings, from: nat): Verdict
    requires from <= |s.tierCaps|
    decreases |s.tierCaps| - from
  {
    if from == |s.tierCaps| then Accepted
    else if s.tierCaps[from] <= 0 then TierNotPositive(from)
    else if s.tierCaps[from] > s.ceiling then TierAboveCeiling(from)
    else CheckTiers(s, from + 1)
  }

  function Validate(s: Settings): Verdict {
    if s.ceiling <= 0 then CeilingNotPositive
    else if !CheckTiers(s, 0).Accepted? then CheckTiers(s, 0)
    else if s.partSize <= 0 then PartSizeNotPositive
    else if s.threshold <= 0 then ThresholdNotPositive
    else if s.threshold > s.ceiling then ThresholdAboveCeiling
    else if CeilDiv(s.ceiling, s.partSize) > S3_MAX_PARTS then
      TooManyParts(CeilDiv(s.ceiling, s.partSize), CeilDiv(s.ceiling, S3_MAX_PARTS))
    else if s.urlTtl <= 0 || s.largeUrlTtl <= 0 then TtlNotPositive
    else Accepted
  }

  /** Rounding up, without division: `n` pieces of size `b` suffice exactly when n >= ceil(a/b). */
  lemma CeilDivCovers(a: int, b: int, n: int)
    requires b > 0
    ensures CeilDiv(a, b) <= n <==> a <= n * b
  {
    var q := (-a) / b;
    assert q * b <= -a < q * b + b;
    if -q <= n {
      assert n * b >= (-q) * b by { Monotone(-q, n, b); }
    } else {
      assert n * b <= (-q - 1) * b by { Monotone(n, -q - 1, b); }
    }
  }

  lemma Monotone(x: int, y: int, b: int)
    requires x <= y && b > 0
    ensures x * b <= y * b
  {
  }

  /** The size suggested in the error is the least part size the check would accept. */
  lemma SuggestionIsLeast(ceiling: int, partSize: int)
    requires ceiling > 0 && partSize > 0
    ensures CeilDiv(ceiling, partSize) <= 10_000 <==> CeilDiv(ceiling, 10_000) <= partSize
    ensures CeilDiv(ceiling, 10_000) > 0
  {
    CeilDivCovers(ceiling, partSize, S3_MAX_PARTS);
    CeilDivCovers(ceiling, S3_MAX_PARTS, partSize);
    CeilDivCovers(ceiling, S3_MAX_PARTS, 0);
    assert S3_MAX_PARTS * partSize == partSize * S3_MAX_PARTS;
  }

  lemma {:induction false} TiersWithinCeiling(s: Settings, from: nat)
    requires from <= |s.tierCaps|
    ensures CheckTiers(s, from).Accepted? <==> forall i :: from <= i < |s.tierCaps| ==> 0 < s.tierCaps[i] <= s.ceiling
    ensures CheckTiers(s, from).Accepted? || CheckTiers(s, from).TierNotPositive? || CheckTiers(s, from).TierAboveCeiling?
    decreases |s.tierCaps| - from
  {
    if from < |s.tierCaps| {
      TiersWithinCeiling(s, from + 1);
    }
  }

  /** Exactly which settings are accepted, in terms of sizes rather than of the checks. */
  lemma AcceptedExactlyWhen(s: Settings)
    ensures Validate(s).Accepted? <==>
            && s.ceiling > 0 && s.partSize > 0 && 0 < s.threshold <= s.ceiling && s.urlTtl > 0 && s.largeUrlTtl > 0
            && (forall i :: 0 <= i < |s.tierCaps| ==> 0 < s.tierCaps[i] <= s.ceiling)
            && s.ceiling <= 10_000 * s.partSize
  {
    TiersWithinCeiling(s, 0);
    if s.partSize > 0 {
      CeilDivCovers(s.ceiling, s.partSize, S3_MAX_PARTS);
    }
  }

  /** Under accepted settings every file within any tier's cap fits the part limit. */
  lemma EveryFileFits(s: Settings, tier: nat, size: int)
    requires Validate(s).Accepted? && tier < |s.tierCaps| && 0 <= size <= s.tierCaps[tier]
    ensures CeilDiv(size, s.partSize) <= 10_000
  {
    AcceptedExactlyWhen(s);
    CeilDivCovers(size, s.partSize, S3_MAX_PARTS);
  }

  /** Following the suggestion turns a rejection for the part count into any other verdict. */
  lemma SuggestionHelps(s: Settings)
    requires Validate(s).TooManyParts?
    ensures var fixed := s.(partSize := Validate(s).required);
            !Validate(fixed).TooManyParts? && Validate(fixed).Accepted? == (s.urlTtl > 0 && s.largeUrlTtl > 0)
  {
    var required := CeilDiv(s.ceiling, S3_MAX_PARTS);
    TiersWithinCeiling(s, 0);
    SuggestionIsLeast(s.ceiling, s.partSize);
    SuggestionIsLeast(s.ceiling, required);
    var fixed := s.(partSize := required);
    TiersWithinCeiling(fixed, 0);
  }

  /** A rejection names the first thing wrong: the ceiling, then the first bad tier cap, the
      part size, the threshold, the part count, and last the lifetimes. */
  lemma RejectedForTheFirstReason(s: Settings)
    ensures Validate(s).CeilingNotPositive? <==> s.ceiling <= 0
    ensures Validate(s).TierNotPositive? ==>
              var i := Validate(s).tier; i < |s.tierCaps| && s.tierCaps[i] <= 0 && GoodBefore(s, i)
    ensures Validate(s).TierAboveCeiling? ==>
              var i := Validate(s).tier; i < |s.tierCaps| && s.tierCaps[i] > s.ceiling && GoodBefore(s, i)
    ensures Validate(s).PartSizeNotPositive? <==> s.ceiling > 0 && GoodBefore(s, |s.tierCaps|) && s.partSize <= 0
    ensures Validate(s).ThresholdNotPositive? <==>
              s.ceiling > 0 && GoodBefore(s, |s.tierCaps|) && s.partSize > 0 && s.threshold <= 0
    ensures Validate(s).ThresholdAboveCeiling? <==>
              s.ceiling > 0 && GoodBefore(s, |s.tierCaps|) && s.partSize > 0 && s.threshold > 0 && s.threshold > s.ceiling
  {
    FirstBadTier(s, 0);
  }

  predicate GoodBefore(s: Settings, n: nat) {
    forall i :: 0 <= i < n && i < |s.tierCaps| ==> 0 < s.tierCaps[i] <= s.ceiling
  }

  lemma {:induction false} FirstBadTier(s: Settings, from: nat)
    requires from <= |s.tierCaps| && GoodBefore(s, from)
    ensures var v := CheckTiers(s, from);
            && (v.Accepted? <==> GoodBefore(s, |s.tierCaps|))
            && (v.Accepted? || v.TierNotPositive? || v.TierAboveCeiling?)
            && (v.TierNotPositive? ==> v.tier < |s.tierCaps| && s.tierCaps[v.tier] <= 0 && GoodBefore(s, v.tier))
            && (v.TierAboveCeiling? ==> v.tier < |s.tierCaps| && s.tierCaps[v.tier] > s.ceiling && GoodBefore(s, v.tier))
    decreases |s.tierCaps| - from
  {
    if from < |s.tierCaps| && 0 < s.tierCaps[from] <= s.ceiling {
      FirstBadTier(s, from + 1);
    }
  }
}
