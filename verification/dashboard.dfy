/**
 * The onboarding dashboard's own decisions: the colour of a document
 * status badge, and how each onboarding step is drawn (style, badge and
 * connector).  Everything here is a pure function of the data shown.
 */
module Dashboard {

  // -------------------------------------------------------- status colour

  const Green: string := "bg-green-500"
  const Yellow: string := "bg-yellow-500"
  const Red: string := "bg-red-500"
  const Gray: string := "bg-gray-300"

  /** Lower-cases one ASCII letter; other characters are kept. */
  function LowerChar(c: char): char {
    if 'A' <= c <= 'Z' then (c as int + 32) as char else c
  }

  /** `toLowerCase` on ASCII letters, character by character. */
  function ToLower(s: string): (r: string)
    ensures |r| == |s|
    ensures forall i :: 0 <= i < |s| ==> r[i] == LowerChar(s[i])
    decreases |s|
  {
    if s == [] then [] else [LowerChar(s[0])] + ToLower(s[1..])
  }

  /** `getStatusColor`: a switch on the lower-cased status. */
  function StatusColor(status: string): (r: string)
    ensures r == Green <==> ToLower(status) == "signed"
    ensures r == Yellow <==> ToLower(status) == "pending"
    ensures r == Red <==> ToLower(status) == "missing"
    ensures r == Gray <==> ToLower(status) != "signed" && ToLower(status) != "pending" && ToLower(status) != "missing"
  {
    match ToLower(status)
    case "signed" => Green
    case "pending" => Yellow
    case "missing" => Red
    case _ => Gray
  }

  /** Two strings that differ only in the case of ASCII letters. */
  predicate SameIgnoringCase(s: string, t: string) {
    |s| == |t| && forall i :: 0 <= i < |s| ==> LowerChar(s[i]) == LowerChar(t[i])
  }

  /** The colour does not depend on letter case. */
  lemma StatusColorIgnoresCase(s: string, t: string)
    requires SameIgnoringCase(s, t)
    ensures StatusColor(s) == StatusColor(t)
  {
    assert ToLower(s) == ToLower(t);
  }

  /** The three statuses the dashboard shows, as capitalised in its data. */
  lemma StatusColorOfDashboardData()
    ensures StatusColor("Signed") == Green
    ensures StatusColor("Pending") == Yellow
    ensures StatusColor("Missing") == Red
  {
    var signed, pending, missing := ToLower("Signed"), ToLower("Pending"), ToLower("Missing");
    assert signed[0] == 's' && pending[0] == 'p' && missing[0] == 'm';
    assert signed == "signed";
    assert pending == "pending";
    assert missing == "missing";
  }

  /** Upper case is ignored, but surrounding spaces are not. */
  lemma StatusColorCaseAndSpace()
    ensures StatusColor("PENDING") == Yellow
    ensures StatusColor("signed ") == Gray
    ensures StatusColor("") == Gray
  {
    var upper := ToLower("PENDING");
    assert upper[0] == 'p' && upper[1] == 'e';
    assert upper == "pending";
    assert |ToLower("signed ")| == 7;
  }

  // ---------------------------------------------------------------- steps

  /** An onboarding step; a missing `active` property reads as false. */
  datatype Step = Step(name: string, completed: bool, active: bool)

  datatype StepStyle = ActiveStyle | CompletedStyle | PendingStyle

  /** The step's colours: active first, then completed, otherwise pending. */
  function StepStyleOf(step: Step): (r: StepStyle)
    ensures r == ActiveStyle <==> step.active
    ensures r == CompletedStyle <==> !step.active && step.completed
    ensures r == PendingStyle <==> !step.active && !step.completed
  {
    if step.active then ActiveStyle
    else if step.completed then CompletedStyle
    else PendingStyle
  }

  datatype Badge = CheckMark | Number(n: nat)

  /** The circle shows a check mark for a completed step, else its 1-based position. */
  function BadgeOf(step: Step, index: nat): (r: Badge)
    ensures r == CheckMark <==> step.completed
    ensures r.Number? ==> r.n == index + 1 && r.n >= 1
  {
    if step.completed then CheckMark else Number(index + 1)
  }

  /** How one step is drawn. */
  datatype StepView = StepView(style: StepStyle, badge: Badge, connector: bool)

  /** The `steps.map` of the navigation bar; a connector follows all but the last step. */
  function RenderSteps(steps: seq<Step>): (r: seq<StepView>)
    ensures |r| == |steps|
    ensures forall i :: 0 <= i < |steps| ==>
      && (r[i].style == ActiveStyle <==> steps[i].active)
      && r[i].style == StepStyleOf(steps[i])
      && (r[i].badge == CheckMark <==> steps[i].completed)
      && r[i].badge == BadgeOf(steps[i], i)
      && (r[i].connector <==> i < |steps| - 1)
  {
    seq(|steps|, i requires 0 <= i < |steps| =>
      StepView(StepStyleOf(steps[i]), BadgeOf(steps[i], i), i < |steps| - 1))
  }

  function CountConnectors(v: seq<StepView>): (n: nat)
    ensures n <= |v|
    decreases |v|
  {
    if v == [] then 0
    else CountConnectors(v[..|v| - 1]) + (if v[|v| - 1].connector then 1 else 0)
  }

  lemma {:induction false} CountConnectorsAll(v: seq<StepView>, n: nat)
    requires n <= |v|
    requires forall i :: 0 <= i < n ==> v[i].connector
    ensures CountConnectors(v[..n]) == n
    decreases n
  {
    if n > 0 {
      assert v[..n][..n - 1] == v[..n - 1];
      CountConnectorsAll(v, n - 1);
    }
  }

  /** A navigation bar of k steps draws k - 1 connectors, none after the last step. */
  lemma ConnectorsBetweenSteps(steps: seq<Step>)
    requires steps != []
    ensures CountConnectors(RenderSteps(steps)) == |steps| - 1
    ensures !RenderSteps(steps)[|steps| - 1].connector
  {
    var r := RenderSteps(steps);
    CountConnectorsAll(r, |r| - 1);
    assert r[..|r|] == r;
  }

  /** Unfinished steps show pairwise different numbers, each its own position. */
  lemma PendingBadgesDistinct(steps: seq<Step>, i: nat, j: nat)
    requires i < j < |steps|
    requires !steps[i].completed && !steps[j].completed
    ensures RenderSteps(steps)[i].badge == Number(i + 1)
    ensures RenderSteps(steps)[i].badge != RenderSteps(steps)[j].badge
  {
  }

  /** An active step is drawn blue even when completed, yet its badge is a check mark. */
  lemma ActiveOverridesCompleted(name: string, index: nat)
    ensures StepStyleOf(Step(name, true, true)) == ActiveStyle
    ensures BadgeOf(Step(name, true, true), index) == CheckMark
  {
  }

  /** The dashboard's fixed list of steps. */
  const OnboardingSteps: seq<Step> := [
    Step("Welcome", true, false),
    Step("Offer Letter", true, false),
    Step("Verification", false, true),
    Step("Complete", false, false)
  ]

  /** Two completed steps, the active third step numbered 3, and a pending 4. */
  lemma OnboardingStepsRendering()
    ensures RenderSteps(OnboardingSteps) == [
      StepView(CompletedStyle, CheckMark, true),
      StepView(CompletedStyle, CheckMark, true),
      StepView(ActiveStyle, Number(3), true),
      StepView(PendingStyle, Number(4), false)
    ]
  {
  }
}
