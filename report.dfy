/** `format_output`: renders a parsed `FinalPlan` as a fixed-layout report. */
module Report {
  import opened Text
  import opened Models
  import ResultParser

  const HalfBanner: string := "=============================="
  /** `"=" * 60` */
  const Banner: string := HalfBanner + HalfBanner
  /** `"\U{2500}" * 40` */
  const Rule: string := "\U{2500}\U{2500}\U{2500}\U{2500}\U{2500}\U{2500}\U{2500}\U{2500}\U{2500}\U{2500}\U{2500}\U{2500}\U{2500}\U{2500}\U{2500}\U{2500}\U{2500}\U{2500}\U{2500}\U{2500}\U{2500}\U{2500}\U{2500}\U{2500}\U{2500}\U{2500}\U{2500}\U{2500}\U{2500}\U{2500}\U{2500}\U{2500}\U{2500}\U{2500}\U{2500}\U{2500}\U{2500}\U{2500}\U{2500}\U{2500}"
  const CustomerHeading: string := "\U{1F4AC} CUSTOMER MESSAGE"
  const NoteHeading: string := "\U{1F512} INTERNAL NOTE"

  /** The ten lines before the steps. */
  function HeaderLines(plan: FinalPlan): seq<string>
  {
    [Banner, "\U{1F3AF} OPSCOPILOT INCIDENT RESPONSE", Banner, "",
     Rule, "\U{1F4DD} PLAN", Rule,
     "Summary: " + plan.summary, "", "Steps:"]
  }

  /** Step number `n` (counted from 1) as `"  n. step"`. */
  function StepLine(n: nat, step: string): string
  {
    "  " + Decimal(n) + ". " + step
  }

  /** The steps numbered from 1 in their given order. */
  function StepLines(steps: seq<string>): (lines: seq<string>)
    ensures |lines| == |steps|
    ensures forall k :: 0 <= k < |steps| ==> lines[k] == StepLine(k + 1, steps[k])
  {
    seq(|steps|, k requires 0 <= k < |steps| => StepLine(k + 1, steps[k]))
  }

  /** The fourteen lines after the steps. */
  function FooterLines(plan: FinalPlan): seq<string>
  {
    ["", Rule, CustomerHeading, Rule, plan.customerMessage,
     "", Rule, NoteHeading, Rule, plan.internalNote,
     "", Banner, "\U{2705} END OF OPSCOPILOT RESPONSE", Banner]
  }

  /** The segments of the report, in order. */
  function ReportLines(plan: FinalPlan): (lines: seq<string>)
    ensures |lines| == 24 + |plan.steps|
    ensures lines[7] == "Summary: " + plan.summary
    ensures lines[9] == "Steps:"
    ensures forall k :: 0 <= k < |plan.steps| ==> lines[10 + k] == StepLine(k + 1, plan.steps[k])
    ensures lines[12 + |plan.steps|] == CustomerHeading
    ensures lines[14 + |plan.steps|] == plan.customerMessage
    ensures lines[17 + |plan.steps|] == NoteHeading
    ensures lines[19 + |plan.steps|] == plan.internalNote
  {
    HeaderLines(plan) + StepLines(plan.steps) + FooterLines(plan)
  }

  /** Parses the writer's response into a plan, builds the segment list as
      `format_output` does (header, one append per step, then the footer) and
      joins it with newlines. */
  method FormatOutput<V>(response: ResultParser.Shape<FinalPlan, V>, dec: ResultParser.Decoder<FinalPlan, V>)
    returns (report: string)
    ensures report == Join(ReportLines(ResultParser.ParsePlan(response, dec)), "\n")
  {
    var plan := ResultParser.ParsePlan(response, dec);
    var parts := HeaderLines(plan);
    for i := 0 to |plan.steps|
      invariant parts == HeaderLines(plan) + StepLines(plan.steps[..i])
    {
      parts := parts + [StepLine(i + 1, plan.steps[i])];
    }
    assert plan.steps[..|plan.steps|] == plan.steps;
    parts := parts + FooterLines(plan);
    report := Join(parts, "\n");
  }

  /** `"  n. "` followed by the step: the number reads back as `n`. */
  lemma StepNumberReadsBack(n: nat, step: string)
    ensures var line := StepLine(n, step);
      var d := |Decimal(n)|;
      line[..2] == "  " && line[2 + d..4 + d] == ". " && line[4 + d..] == step
      && (forall k :: 2 <= k < 2 + d ==> IsDigit(line[k]))
      && DigitsValue(line[2..2 + d]) == n
  {
    var line := StepLine(n, step);
    assert line[2..2 + |Decimal(n)|] == Decimal(n);
    DecimalRoundTrip(n);
  }

  /** Summary, steps, customer message and internal note all appear verbatim
      in the report, whatever they contain. */
  lemma ReportShowsPlan(plan: FinalPlan)
    ensures IsInfix(plan.summary, Join(ReportLines(plan), "\n"))
    ensures forall k :: 0 <= k < |plan.steps| ==> IsInfix(plan.steps[k], Join(ReportLines(plan), "\n"))
    ensures IsInfix(plan.customerMessage, Join(ReportLines(plan), "\n"))
    ensures IsInfix(plan.internalNote, Join(ReportLines(plan), "\n"))
  {
    var lines := ReportLines(plan);
    var report := Join(lines, "\n");
    var n := |plan.steps|;
    JoinContainsPart(lines, "\n", 7);
    InfixOfConcat("Summary: ", plan.summary, "");
    assert "Summary: " + plan.summary + "" == lines[7];
    InfixTransitive(plan.summary, lines[7], report);
    forall k | 0 <= k < n
      ensures IsInfix(plan.steps[k], report)
    {
      JoinContainsPart(lines, "\n", 10 + k);
      InfixOfConcat("  " + Decimal(k + 1) + ". ", plan.steps[k], "");
      assert "  " + Decimal(k + 1) + ". " + plan.steps[k] + "" == lines[10 + k];
      InfixTransitive(plan.steps[k], lines[10 + k], report);
    }
    JoinContainsPart(lines, "\n", 14 + n);
    JoinContainsPart(lines, "\n", 19 + n);
  }

  /** No segment contains a newline. */
  predicate SingleLines(lines: seq<string>)
  {
    forall k :: 0 <= k < |lines| ==> '\n' !in lines[k]
  }

  /** When no field holds a newline, splitting the report at newlines gives
      back exactly the 24 + |steps| segments, so each field is its own line
      under its heading. */
  lemma ReportSplitsIntoLines(plan: FinalPlan)
    requires '\n' !in plan.summary && '\n' !in plan.customerMessage && '\n' !in plan.internalNote
    requires forall k :: 0 <= k < |plan.steps| ==> '\n' !in plan.steps[k]
    ensures Split(Join(ReportLines(plan), "\n"), '\n') == ReportLines(plan)
  {
    HeaderIsSingleLines(plan);
    StepsAreSingleLines(plan.steps);
    FooterIsSingleLines(plan);
    var lines := ReportLines(plan);
    assert SingleLines(lines);
    assert "\n" == ['\n'];
    SplitJoin(lines, '\n');
  }

  lemma HeaderIsSingleLines(plan: FinalPlan)
    requires '\n' !in plan.summary
    ensures SingleLines(HeaderLines(plan))
  {
    BannerIsOneLine();
    RuleIsOneLine();
    var h := HeaderLines(plan);
    assert '\n' !in h[1];
    assert '\n' !in h[5];
    assert '\n' !in h[7];
    assert '\n' !in h[9];
  }

  lemma StepsAreSingleLines(steps: seq<string>)
    requires forall k :: 0 <= k < |steps| ==> '\n' !in steps[k]
    ensures SingleLines(StepLines(steps))
  {
    forall k | 0 <= k < |steps|
      ensures '\n' !in StepLines(steps)[k]
    {
      var d := Decimal(k + 1);
      assert StepLines(steps)[k] == "  " + d + ". " + steps[k];
      assert forall t :: 0 <= t < |d| ==> d[t] != '\n';
    }
  }

  lemma FooterIsSingleLines(plan: FinalPlan)
    requires '\n' !in plan.customerMessage && '\n' !in plan.internalNote
    ensures SingleLines(FooterLines(plan))
  {
    BannerIsOneLine();
    RuleIsOneLine();
    var f := FooterLines(plan);
    assert '\n' !in f[2];
    assert '\n' !in f[7];
    assert '\n' !in f[12];
  }

  lemma BannerIsOneLine()
    ensures '\n' !in Banner
  {
    assert '\n' !in HalfBanner;
  }

  lemma RuleIsOneLine()
    ensures '\n' !in Rule
  {
  }

  /** The fallback plan's steps render as two numbered lines, so its report
      has 26 segments. */
  lemma FallbackPlanRenders()
    ensures StepLines(ResultParser.PlanFallback().steps) == ["  1. " + "Review incident manually", "  2. " + "Contact on-call engineer"]
    ensures |ReportLines(ResultParser.PlanFallback())| == 26
  {
    var steps := ResultParser.PlanFallback().steps;
    assert |steps| == 2;
    assert Decimal(1) == "1" && Decimal(2) == "2";
    assert StepLine(1, steps[0]) == "  1. " + "Review incident manually";
    assert StepLine(2, steps[1]) == "  2. " + "Contact on-call engineer";
  }
}
