/** The health check of the deployed signup pipeline
    (`handleTestPipeline`). Each probe's network call is replaced by its
    outcome: the answer it got, or the message of the error it threw. */
module Pipeline {
  import opened Common
  import opened Stats

  /** One entry of the report. */
  datatype Check = Check(name: string, pass: bool, detail: string)

  /** Outcome of a plain GET probe. */
  datatype Probe = Answered(status: nat) | Threw(message: string)

  /** Outcome of the group lookup: the status with `data.data?.name` and
      `data.data?.active_count`, or the message of the error thrown by
      the request or by reading its body. */
  datatype GroupProbe =
    | GroupAnswered(status: nat, name: Option<string>, activeCount: Option<int>)
    | GroupThrew(message: string)

  /** Outcome of the automation lookup: the status with the payload, or
      the message of the error thrown. */
  datatype AutomationProbe =
    | AutomationAnswered(status: nat, payload: AutomationPayload)
    | AutomationThrew(message: string)

  /** The outcomes of the four network probes, in the order they run. */
  datatype Probes = Probes(
    landing: Probe,
    subscribe: Probe,
    group: GroupProbe,
    automation: AutomationProbe)

  /** The names of the five checks, in report order. */
  const CheckNames: seq<string> :=
    ["API Key", "Landing Page", "Subscribe Function", "MailerLite Group", "Automation"]

  /** The detail of a provider check that needs the key when there is none. */
  const SkippedDetail: string := "Skipped (no API key)"

  /** Check 1: the key is configured. */
  function ApiKeyCheck(apiKey: Option<string>): Check
  {
    Check("API Key", Truthy(apiKey),
          if Truthy(apiKey) then "Configured" else "Missing MAILERLITE_API_KEY env var")
  }

  /** Check 2: the landing page answers 200. */
  function LandingCheck(p: Probe): Check
  {
    match p
    case Answered(status) => Check("Landing Page", status == 200, "HTTP " + NatToString(status))
    case Threw(message) => Check("Landing Page", false, message)
  }

  /** Check 3: the signup endpoint is deployed, which a GET shows by
      answering 405. */
  function SubscribeCheck(p: Probe): Check
  {
    match p
    case Answered(status) =>
      Check("Subscribe Function", status == 405,
            if status == 405 then "Deployed (405 on GET as expected)"
            else "Unexpected HTTP " + NatToString(status))
    case Threw(message) => Check("Subscribe Function", false, message)
  }

  /** Check 4: the group exists; the detail quotes its name (`undefined`
      when absent) and its active count (0 when absent). */
  function GroupCheck(p: GroupProbe): Check
  {
    match p
    case GroupAnswered(status, name, active) =>
      Check("MailerLite Group", StatusOk(status),
            if StatusOk(status) then
              "\"" + (if name.Some? then name.value else "undefined") + "\" ("
                + IntToString(OrZero(active)) + " active)"
            else "HTTP " + NatToString(status))
    case GroupThrew(message) => Check("MailerLite Group", false, message)
  }

  /** Check 5: the automation is enabled and not broken. The answer's
      status is not consulted. */
  function AutomationCheck(p: AutomationProbe): Check
  {
    match p
    case AutomationAnswered(_, payload) =>
      var auto := Unwrap(payload);
      var enabled := auto.enabled == Some(true);
      var broken := auto.broken == Some(true);
      Check("Automation", enabled && !broken,
            if enabled then (if broken then "Enabled but BROKEN" else "Enabled and healthy")
            else "Disabled")
    case AutomationThrew(message) => Check("Automation", false, message)
  }

  /** The entry recorded for a provider check that is not attempted. */
  function Skipped(name: string): Check
  {
    Check(name, false, SkippedDetail)
  }

  /** Reference definition of the i-th entry of the report: each entry is
      decided by its own probe alone, and the two provider checks are
      skipped when there is no key. */
  function CheckAt(i: nat, apiKey: Option<string>, probes: Probes): Check
    requires i < 5
  {
    if i == 0 then ApiKeyCheck(apiKey)
    else if i == 1 then LandingCheck(probes.landing)
    else if i == 2 then SubscribeCheck(probes.subscribe)
    else if !Truthy(apiKey) then Skipped(CheckNames[i])
    else if i == 3 then GroupCheck(probes.group)
    else AutomationCheck(probes.automation)
  }

  /** `checks.every(c => c.pass)`. */
  function AllPassed(checks: seq<Check>): (r: bool)
    ensures r <==> forall i :: 0 <= i < |checks| ==> checks[i].pass
  {
    if checks == [] then true
    else checks[0].pass && AllPassed(checks[1..])
  }

  /** The body of the health-check response (the timestamp left out). */
  datatype PipelineReport = PipelineReport(checks: seq<Check>, allPassed: bool)

  /** Reference report: the five entries in order, and whether all passed. */
  function PipelineOutcome(apiKey: Option<string>, probes: Probes): PipelineReport
  {
    var checks := seq(5, i requires 0 <= i < 5 => CheckAt(i, apiKey, probes));
    PipelineReport(checks, AllPassed(checks))
  }

  /** `handleTestPipeline`: run the checks one after another, each inside
      its own failure boundary, appending one entry per check. */
  method TestPipeline(apiKey: Option<string>, probes: Probes) returns (report: PipelineReport)
    ensures report == PipelineOutcome(apiKey, probes)
  {
    var checks: seq<Check> := [];
    checks := checks + [ApiKeyCheck(apiKey)];
    checks := checks + [LandingCheck(probes.landing)];
    checks := checks + [SubscribeCheck(probes.subscribe)];
    if Truthy(apiKey) {
      checks := checks + [GroupCheck(probes.group)];
      checks := checks + [AutomationCheck(probes.automation)];
    } else {
      checks := checks + [Skipped("MailerLite Group")];
      checks := checks + [Skipped("Automation")];
    }
    ghost var expected := PipelineOutcome(apiKey, probes).checks;
    assert |checks| == |expected| == 5;
    forall i | 0 <= i < 5
      ensures checks[i] == expected[i]
    {
      assert expected[i] == CheckAt(i, apiKey, probes);
    }
    assert checks == expected;
    report := PipelineReport(checks, AllPassed(checks));
  }

  /** The report always holds exactly five checks, named in the fixed
      order, and `allPassed` holds exactly when every one of them passed. */
  lemma ReportShape(apiKey: Option<string>, probes: Probes)
    ensures var r := PipelineOutcome(apiKey, probes);
            && |r.checks| == 5
            && (forall i :: 0 <= i < 5 ==> r.checks[i].name == CheckNames[i])
            && (r.allPassed <==> forall i :: 0 <= i < 5 ==> r.checks[i].pass)
  {
  }

  /** Without a key the two provider checks fail as skipped whatever
      their probes would have said, the first three still run, and the
      report cannot pass as a whole. */
  lemma SkippedWithoutKey(apiKey: Option<string>, probes: Probes, other: Probes)
    requires !Truthy(apiKey)
    requires probes.landing == other.landing && probes.subscribe == other.subscribe
    ensures var r := PipelineOutcome(apiKey, probes);
            && r.checks[3] == Check("MailerLite Group", false, SkippedDetail)
            && r.checks[4] == Check("Automation", false, SkippedDetail)
            && r.checks[1] == LandingCheck(probes.landing)
            && r.checks[2] == SubscribeCheck(probes.subscribe)
            && !r.allPassed
            && r == PipelineOutcome(apiKey, other)
  {
    var r := PipelineOutcome(apiKey, probes);
    assert !r.checks[0].pass;
  }

  /** A probe that throws yields a failed entry whose detail is the
      error's message (for the two provider probes, when they run at all:
      with a key), and every other entry is the same as it would have been
      whatever that probe's outcome. */
  lemma ThrownProbeIsolated(apiKey: Option<string>, probes: Probes, message: string)
    ensures var r := PipelineOutcome(apiKey, probes);
            && (probes.landing == Threw(message) ==>
                  r.checks[1] == Check("Landing Page", false, message))
            && (probes.subscribe == Threw(message) ==>
                  r.checks[2] == Check("Subscribe Function", false, message))
            && (Truthy(apiKey) && probes.group == GroupThrew(message) ==>
                  r.checks[3] == Check("MailerLite Group", false, message))
            && (Truthy(apiKey) && probes.automation == AutomationThrew(message) ==>
                  r.checks[4] == Check("Automation", false, message))
    ensures var r := PipelineOutcome(apiKey, probes);
            && (forall alt: Probe, i :: 0 <= i < 5 && i != 1 ==>
                  PipelineOutcome(apiKey, probes.(landing := alt)).checks[i] == r.checks[i])
            && (forall alt: Probe, i :: 0 <= i < 5 && i != 2 ==>
                  PipelineOutcome(apiKey, probes.(subscribe := alt)).checks[i] == r.checks[i])
            && (forall alt: GroupProbe, i :: 0 <= i < 5 && i != 3 ==>
                  PipelineOutcome(apiKey, probes.(group := alt)).checks[i] == r.checks[i])
            && (forall alt: AutomationProbe, i :: 0 <= i < 5 && i != 4 ==>
                  PipelineOutcome(apiKey, probes.(automation := alt)).checks[i] == r.checks[i])
  {
  }

  /** The automation check passes iff `enabled` is exactly true and
      `broken` is not true; its detail tells the three states apart. */
  lemma AutomationPassRule(p: AutomationProbe)
    ensures AutomationCheck(p).pass <==>
              p.AutomationAnswered?
              && Unwrap(p.payload).enabled == Some(true)
              && Unwrap(p.payload).broken != Some(true)
    ensures p.AutomationAnswered? ==>
              var a := Unwrap(p.payload);
              AutomationCheck(p).detail ==
                if a.enabled != Some(true) then "Disabled"
                else if a.broken == Some(true) then "Enabled but BROKEN"
                else "Enabled and healthy"
  {
  }
}
