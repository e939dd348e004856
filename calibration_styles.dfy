/** CalibrationStyles and the per-style set-up of do_calibration
    (calibrate.cpp:315-346, 451-553): which cv::CALIB_* flags each style
    passes to the solver and which entries of the camera matrix and the
    distortion vector it seeds. */
module CalibrationStyles {
  import opened Vision

  // The style enumeration, in declaration order.
  const Unknown: int := -1
  const MinimumFreedom: int := 0
  const K1Free: int := 1
  const K2Free: int := 2
  const PrincipalPointFree: int := 3
  const UnequalFocalLengths: int := 4
  const TangentDistortion: int := 5
  const K3Free: int := 6
  const Custom: int := 7
  const AK1FreeBFixPrincipalPointFree: int := 8
  const NumberOfStyles: int := 9
  /** Styles in [RangeTwiceBeg, RangeTwiceEnd) run the solver twice. */
  const RangeTwiceBeg: int := AK1FreeBFixPrincipalPointFree
  const RangeTwiceEnd: int := NumberOfStyles

  predicate IsStyle(style: int) {
    0 <= style < NumberOfStyles
  }

  /** CalibrationStyles::name: the enumerator's own spelling, or "unknown style". */
  function Name(style: int): (r: string)
    ensures r == "unknown style" <==> !IsStyle(style)
  {
    if style == MinimumFreedom then "minimum_freedom"
    else if style == K1Free then "k1_free"
    else if style == K2Free then "k2_free"
    else if style == PrincipalPointFree then "principal_point_free"
    else if style == UnequalFocalLengths then "unequal_focal_lengths"
    else if style == TangentDistortion then "tangent_distortion"
    else if style == K3Free then "k3_free"
    else if style == Custom then "custom"
    else if style == AK1FreeBFixPrincipalPointFree then "a_k1_free_b_fix_principal_point_free"
    else "unknown style"
  }

  /** Different styles have different names, so a report names its style unambiguously. */
  lemma NameIdentifiesStyle(a: int, b: int)
    requires IsStyle(a) && IsStyle(b) && Name(a) == Name(b)
    ensures a == b
  {
  }

  predicate IsTwoStage(style: int) {
    RangeTwiceBeg <= style < RangeTwiceEnd
  }

  /** The solver's inputs: its flags and the starting camera matrix and distortion. */
  datatype Setup = Setup(flags: set<CalibFlag>, camera_matrix: Matx33, dist_coeffs: DistCoeffs)

  /** C++ integer division by 2: the quotient is truncated toward zero, so the
      remainder n - 2r has the sign of n and is at most 1 in size. */
  function Half(n: int): (r: int)
    ensures -1 <= n - 2 * r <= 1
    ensures n >= 0 ==> 0 <= n - 2 * r
    ensures n < 0 ==> n - 2 * r <= 0
  {
    if n >= 0 then n / 2 else -((-n) / 2)
  }

  /** fx = fy = 1, principal point at the (integer) image centre, (2,2) = 1;
      the other entries of m are kept. */
  function CentredSeed(m: Matx33, size: Size): (r: Matx33)
    ensures r[0] == 1.0 && r[4] == 1.0 && r[8] == 1.0
    ensures r[2] == Half(size.width) as real && r[5] == Half(size.height) as real
    ensures r[1] == m[1] && r[3] == m[3] && r[6] == m[6] && r[7] == m[7]
  {
    m[0 := 1.0][4 := 1.0][2 := Half(size.width) as real][5 := Half(size.height) as real][8 := 1.0]
  }

  const CentredFlags: set<CalibFlag> := {FixPrincipalPoint, FixAspectRatio, ZeroTangentDist, FixK2, FixK3}

  /** The first of the two solver runs of a two-stage style (calibrate.cpp:451-474):
      every two-stage style falls to the a_k1_free_b_fix_principal_point_free case. */
  function FirstStage(size: Size): (s: Setup)
    ensures s.flags == CentredFlags
  {
    Setup(CentredFlags, CentredSeed(ZeroMatx33, size), ZeroDistCoeffs)
  }

  /** The flags of the final solver run (calibrate.cpp:477-553); anything that is
      not a style gets minimum_freedom's. */
  function StyleFlags(style: int): (f: set<CalibFlag>)
    ensures UseIntrinsicGuess in f <==> style == Custom || style == AK1FreeBFixPrincipalPointFree
  {
    if style == K1Free then CentredFlags
    else if style == K2Free then {FixPrincipalPoint, FixAspectRatio, ZeroTangentDist, FixK3}
    else if style == PrincipalPointFree then {FixAspectRatio, ZeroTangentDist, FixK3}
    else if style == UnequalFocalLengths then {ZeroTangentDist, FixK3}
    else if style == TangentDistortion then {FixK3}
    else if style == K3Free then {}
    else if style == Custom then
      {UseIntrinsicGuess, FixPrincipalPoint, FixFocalLength, FixAspectRatio, ZeroTangentDist, FixK1, FixK2, FixK3}
    else if style == AK1FreeBFixPrincipalPointFree then
      {UseIntrinsicGuess, FixAspectRatio, ZeroTangentDist, FixK3}
    else {FixPrincipalPoint, FixAspectRatio, ZeroTangentDist, FixK1, FixK2, FixK3}
  }

  /** The final run's set-up, starting from the matrix and distortion already in
      the result (zero, or a first stage's answer): the style's flags, with the
      entries the style seeds overwritten. */
  function ApplyStyle(style: int, size: Size, m: Matx33, d: DistCoeffs): (s: Setup)
    ensures s.flags == StyleFlags(style)
  {
    var flags := StyleFlags(style);
    if style == PrincipalPointFree then Setup(flags, m[0 := 1.0][4 := 1.0], d)
    else if style == UnequalFocalLengths || style == TangentDistortion || style == K3Free
         || style == AK1FreeBFixPrincipalPointFree then Setup(flags, m, d)
    else if style == Custom then
      Setup(flags, m[0 := 699.3550][4 := 699.3550][2 := 650.0850][5 := 354.6600][8 := 1.0],
            d[0 := -0.1716][1 := 0.0246])
    else Setup(flags, CentredSeed(m, size), d)
  }

  /** Each style of the first seven frees more of the camera model than the one
      before: minimum_freedom ⊃ k1_free ⊃ k2_free ⊃ principal_point_free ⊃
      unequal_focal_lengths ⊃ tangent_distortion ⊃ k3_free = {}. */
  lemma {:induction false} FlagsStrictlyNested(i: int, j: int)
    requires MinimumFreedom <= i < j <= K3Free
    ensures StyleFlags(j) < StyleFlags(i)
    ensures StyleFlags(K3Free) == {}
    decreases j - i
  {
    if j == i + 1 {
      if i == MinimumFreedom {
        assert FixK1 in StyleFlags(i) - StyleFlags(j);
      } else if i == K1Free {
        assert FixK2 in StyleFlags(i) - StyleFlags(j);
      } else if i == K2Free {
        assert FixPrincipalPoint in StyleFlags(i) - StyleFlags(j);
      } else if i == PrincipalPointFree {
        assert FixAspectRatio in StyleFlags(i) - StyleFlags(j);
      } else if i == UnequalFocalLengths {
        assert ZeroTangentDist in StyleFlags(i) - StyleFlags(j);
      } else {
        assert FixK3 in StyleFlags(i) - StyleFlags(j);
      }
    } else {
      FlagsStrictlyNested(i, j - 1);
      FlagsStrictlyNested(j - 1, j);
    }
  }

  /** The two-stage style's first run is set up exactly as k1_free is, and its
      recorded flags are those of its second run. */
  lemma TwoStageStartsAsK1Free(size: Size)
    ensures FirstStage(size) == ApplyStyle(K1Free, size, ZeroMatx33, ZeroDistCoeffs)
    ensures StyleFlags(AK1FreeBFixPrincipalPointFree) == {UseIntrinsicGuess, FixAspectRatio, ZeroTangentDist, FixK3}
  {
  }

  /** The two-stage style's second run seeds nothing: it starts from the first
      run's answer as it stands, with the principal point and k2 now free. */
  lemma SecondStageKeepsFirstAnswer(size: Size, m: Matx33, d: DistCoeffs)
    ensures ApplyStyle(AK1FreeBFixPrincipalPointFree, size, m, d) == Setup(StyleFlags(AK1FreeBFixPrincipalPointFree), m, d)
    ensures FixPrincipalPoint in FirstStage(size).flags && FixPrincipalPoint !in StyleFlags(AK1FreeBFixPrincipalPointFree)
    ensures FixK2 in FirstStage(size).flags && FixK2 !in StyleFlags(AK1FreeBFixPrincipalPointFree)
  {
  }

  /** A value that is not a style is calibrated as minimum_freedom (the
      `default:` label shares its case). */
  lemma UnknownStyleIsMinimumFreedom(style: int, size: Size, m: Matx33, d: DistCoeffs)
    requires !IsStyle(style)
    ensures ApplyStyle(style, size, m, d) == ApplyStyle(MinimumFreedom, size, m, d)
  {
  }
}
