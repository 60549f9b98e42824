/**
 * The texts the Open Source vulnerability description panel derives from a
 * vulnerability when it is assigned to the panel's `Vulnerability` property.
 */
module OssDescription {

  import opened Wrappers
  import opened Strings

  /**
   * The fields of a CLI-reported vulnerability that the panel reads. The two
   * arrays and the display text may be null (`None`).
   */
  datatype Vulnerability = Vulnerability(
    name: string,
    from: Option<seq<string>>,
    exploit: string,
    fixedInDisplayText: Option<string>,
    fixedIn: Option<seq<string>>)

  /** What the panel shows after the assignment. */
  datatype DescriptionView = DescriptionView(
    gridVisible: bool,
    vulnerableModule: string,
    introducedThrough: string,
    exploitMaturity: string,
    fixedIn: string,
    detailedIntroducedThrough: string,
    fix: string)

  const IntroducedThroughSeparator := ", "
  const PathSeparator := " > "
  const UpgradePrefix := "Upgrade to "
  const NoFixedVersionPrefix := "There is no fixed version for "

  /** An array that is present and holds at least one element. */
  predicate NonEmpty(xs: Option<seq<string>>) {
    xs.Some? && |xs.value| != 0
  }

  /** `xs` joined with `sep` when it is present and non-empty, otherwise the empty text. */
  function JoinOrEmpty(sep: string, xs: Option<seq<string>>): (r: string)
    ensures NonEmpty(xs) ==> r == Join(sep, xs.value) && StartsWith(r, xs.value[0])
    ensures !NonEmpty(xs) ==> r == ""
  {
    if NonEmpty(xs) then JoinHead(sep, xs.value); Join(sep, xs.value) else ""
  }

  /** A text that is non-empty and holds a character other than white space. */
  predicate NotBlank(s: string) {
    !IsNullOrWhiteSpace(Some(s))
  }

  /** The texts derived from `v` by the `Vulnerability` setter. */
  function Describe(v: Vulnerability): (d: DescriptionView)
    ensures d.gridVisible
    ensures d.vulnerableModule == v.name && d.exploitMaturity == v.exploit
    ensures NonEmpty(v.from) ==> d.introducedThrough == Join(IntroducedThroughSeparator, v.from.value)
    ensures NonEmpty(v.from) ==> d.detailedIntroducedThrough == Join(PathSeparator, v.from.value)
    ensures !NonEmpty(v.from) ==> d.introducedThrough == "" && d.detailedIntroducedThrough == ""
    ensures StartsWith(d.fix, UpgradePrefix) <==> NonEmpty(v.fixedIn)
    ensures NonEmpty(v.fixedIn) ==> d.fix[|UpgradePrefix|..] == Join(PathSeparator, v.fixedIn.value)
    ensures !NonEmpty(v.fixedIn) ==> d.fix == ""
    ensures NotBlank(d.fixedIn)
    ensures !IsNullOrWhiteSpace(v.fixedInDisplayText) ==> d.fixedIn == v.fixedInDisplayText.value
    ensures IsNullOrWhiteSpace(v.fixedInDisplayText) ==> d.fixedIn == NoFixedVersionPrefix + v.name
  {
    var fixText := if NonEmpty(v.fixedIn) then UpgradePrefix + Join(PathSeparator, v.fixedIn.value) else "";
    assert NonEmpty(v.fixedIn) ==> fixText[..|UpgradePrefix|] == UpgradePrefix;
    var fixedInText :=
      if IsNullOrWhiteSpace(v.fixedInDisplayText) then NoFixedVersionPrefix + v.name
      else v.fixedInDisplayText.value;
    assert IsNullOrWhiteSpace(v.fixedInDisplayText) ==> !IsWhiteSpace(fixedInText[0]);
    DescriptionView(
      gridVisible := true,
      vulnerableModule := v.name,
      introducedThrough := JoinOrEmpty(IntroducedThroughSeparator, v.from),
      exploitMaturity := v.exploit,
      fixedIn := fixedInText,
      detailedIntroducedThrough := JoinOrEmpty(PathSeparator, v.from),
      fix := fixText)
  }

  /**
   * The two introduced-through texts list the same dependency path: both begin
   * with its first package, and the detailed one is longer by exactly one
   * character per separator (" > " against ", ").
   */
  lemma IntroducedThroughTextsAgree(v: Vulnerability)
    requires NonEmpty(v.from)
    ensures StartsWith(Describe(v).introducedThrough, v.from.value[0])
    ensures StartsWith(Describe(v).detailedIntroducedThrough, v.from.value[0])
    ensures |Describe(v).detailedIntroducedThrough| == |Describe(v).introducedThrough| + |v.from.value| - 1
  {
    JoinLength(IntroducedThroughSeparator, v.from.value);
    JoinLength(PathSeparator, v.from.value);
  }

  /**
   * Cutting the upgrade path at any package: the fix text is the upgrade
   * prefix, the packages before the cut, " > ", then the packages from the cut on.
   */
  lemma FixTextSplitsAtPackage(v: Vulnerability, i: nat)
    requires NonEmpty(v.fixedIn) && 0 < i < |v.fixedIn.value|
    ensures Describe(v).fix ==
      UpgradePrefix + Join(PathSeparator, v.fixedIn.value[..i]) + PathSeparator + Join(PathSeparator, v.fixedIn.value[i..])
  {
    var fix := Describe(v).fix;
    var p := |UpgradePrefix|;
    assert fix == fix[..p] + fix[p..];
    JoinSplit(PathSeparator, v.fixedIn.value, i);
  }
}
