/** The stats action of the dashboard (`handleStats`): both provider
    fetches, the per-variant summary with its zero-denominator guards, and
    the automation summary with its defaults for missing fields. */
module Stats {
  import opened Common
  import opened Aggregation
  import opened Pagination

  /** A percentage or rate before it is rendered with one decimal: the
      literal "0.0" chosen when the denominator is not positive, the
      percentage itself, or NaN when the numerator is absent. */
  datatype Rate = ZeroText | Percent(value: real) | NotANumber

  /** `den > 0 ? (num / den * 100) : '0.0'`. */
  function Ratio(num: int, den: int): Rate
  {
    if den > 0 then Percent((num as real / den as real) * 100.0) else ZeroText
  }

  /** One entry of the `variants` object of the response. */
  datatype VariantSummary = VariantSummary(
    count: nat,
    percentage: Rate,
    numSent: nat,
    numOpened: nat,
    numClicked: nat,
    openRate: Rate,
    clickRate: Rate)

  /** The summary of one bucket, given the number of all subscribers. */
  function Summarize(b: Bucket, total: nat): VariantSummary
  {
    VariantSummary(
      b.count, Ratio(b.count, total), b.numSent, b.numOpened, b.numClicked,
      Ratio(b.numOpened, b.numSent), Ratio(b.numClicked, b.numSent))
  }

  /** The summary of every bucket, under the bucket's label. */
  function Summaries(variants: map<string, Bucket>, total: nat): map<string, VariantSummary>
  {
    map k | k in variants :: Summarize(variants[k], total)
  }

  /** The automation's `stats` object; every counter may be absent. */
  datatype AutomationStats = AutomationStats(
    queueCount: Option<int>,
    completedCount: Option<int>,
    sentCount: Option<int>,
    openCount: Option<int>,
    clickCount: Option<int>)

  /** The empty object `{}` that stands in for missing stats. */
  const NoStats: AutomationStats := AutomationStats(None, None, None, None, None)

  /** The automation record as the provider returns it; every field may
      be absent. */
  datatype Automation = Automation(
    name: Option<string>,
    enabled: Option<bool>,
    broken: Option<bool>,
    emailsCount: Option<int>,
    stats: Option<AutomationStats>)

  /** A provider payload, with or without a `data` envelope. */
  datatype AutomationPayload = Enveloped(data: Automation) | Bare(body: Automation)

  /** `res.data || res`: the record inside the envelope when there is one. */
  function Unwrap(p: AutomationPayload): Automation
  {
    match p
    case Enveloped(a) => a
    case Bare(a) => a
  }

  /** The answer to the automation request. */
  datatype AutomationResponse = AutomationResponse(status: nat, payload: AutomationPayload)

  /** `fetchAutomation`: the payload of an ok answer, else an error with
      the answer's status. */
  function FetchAutomation(r: AutomationResponse): (res: Result<AutomationPayload, FetchError>)
    ensures res.Success? <==> StatusOk(r.status)
    ensures res.Success? ==> res.value == r.payload
    ensures res.Failure? ==> res.error == AutomationFailed(r.status)
  {
    if StatusOk(r.status) then Success(r.payload) else Failure(AutomationFailed(r.status))
  }

  /** The `automation` object of the response. */
  datatype AutomationSummary = AutomationSummary(
    name: string,
    enabled: bool,
    broken: bool,
    stats: AutomationStats,
    emailsCount: int,
    queueCount: int,
    completedCount: int,
    sent: int,
    opens: int,
    clicks: int,
    openRate: Rate,
    clickRate: Rate)

  /** `stats?.sent_count > 0 ? (num / sent_count * 100) : '0.0'`, where a
      missing numerator divides as NaN. */
  function StatRate(num: Option<int>, sent: Option<int>): Rate
  {
    if sent.Some? && sent.value > 0 then
      if num.Some? then Ratio(num.value, sent.value) else NotANumber
    else ZeroText
  }

  /** The automation summary, every missing field replaced by its default. */
  function SummarizeAutomation(a: Automation): AutomationSummary
  {
    var st := if a.stats.Some? then a.stats.value else NoStats;
    AutomationSummary(
      OrElse(a.name, "Unknown"),
      a.enabled == Some(true),
      a.broken == Some(true),
      st,
      OrZero(a.emailsCount),
      OrZero(st.queueCount),
      OrZero(st.completedCount),
      OrZero(st.sentCount),
      OrZero(st.openCount),
      OrZero(st.clickCount),
      StatRate(st.openCount, st.sentCount),
      StatRate(st.clickCount, st.sentCount))
  }

  /** The body of a successful stats response (the timestamp left out). */
  datatype StatsBody = StatsBody(
    total: nat,
    variants: map<string, VariantSummary>,
    automation: AutomationSummary)

  /** Reference outcome of the stats action: either fetch failing fails
      the whole action with that fetch's error; otherwise the total, the
      summarised buckets and the automation summary. When the listing
      never ends, `Promise.all` still settles on a failed automation fetch. */
  function StatsOutcome(pages: seq<PageResponse>, automation: AutomationResponse): Result<StatsBody, FetchError>
    requires Ends(pages) || !StatusOk(automation.status)
  {
    if !Ends(pages) then Failure(AutomationFailed(automation.status))
    else
    match Traverse(pages)
    case Failure(e) => Failure(e)
    case Success(subs) =>
      match FetchAutomation(automation)
      case Failure(e) => Failure(e)
      case Success(p) =>
        Success(StatsBody(|subs|, Summaries(Aggregated(subs), |subs|), SummarizeAutomation(Unwrap(p))))
  }

  /** The loop of `handleStats` that fills `variantSummary`, one label at a
      time in no particular order. */
  method SummarizeVariants(variants: map<string, Bucket>, total: nat)
      returns (summary: map<string, VariantSummary>)
    ensures summary == Summaries(variants, total)
  {
    summary := map[];
    var pending := variants.Keys;
    while pending != {}
      invariant pending <= variants.Keys
      invariant summary.Keys == variants.Keys - pending
      invariant forall k :: k in summary ==> summary[k] == Summarize(variants[k], total)
      decreases pending
    {
      var name :| name in pending;
      summary := summary[name := Summarize(variants[name], total)];
      pending := pending - {name};
    }
  }

  /** `handleStats`: fetch the subscribers and the automation (either
      failure aborts), aggregate, and shape the response body. */
  method HandleStats(pages: seq<PageResponse>, automation: AutomationResponse)
      returns (r: Result<StatsBody, FetchError>)
    requires Ends(pages) || !StatusOk(automation.status)
    ensures r == StatsOutcome(pages, automation)
  {
    var fetched := FetchAutomation(automation);
    if !Ends(pages) {
      // The listing loop never settles; the automation's rejection does.
      return Failure(fetched.error);
    }
    var listing, _ := FetchAllSubscribers(pages);
    if listing.Failure? {
      return Failure(listing.error);
    }
    if fetched.Failure? {
      return Failure(fetched.error);
    }
    var subscribers := listing.value;
    var buckets := AggregateStats(subscribers);
    var summary := SummarizeVariants(buckets, |subscribers|);
    var auto := SummarizeAutomation(Unwrap(fetched.value));
    r := Success(StatsBody(|subscribers|, summary, auto));
  }

  /** A ratio of a part to a positive whole is a percentage in [0, 100],
      and positive when the part is. */
  lemma RatioBounds(num: int, den: int)
    requires 0 <= num <= den && 0 < den
    ensures Ratio(num, den).Percent?
    ensures 0.0 <= Ratio(num, den).value <= 100.0
    ensures 0 < num ==> 0.0 < Ratio(num, den).value
  {
    var q := num as real / den as real;
    assert q * den as real == num as real;
    assert q <= 1.0;
  }

  /** No partial stats: the action fails exactly when one of the two
      fetches fails, and a listing failure takes precedence. */
  lemma StatsAllOrNothing(pages: seq<PageResponse>, automation: AutomationResponse)
    requires Ends(pages)
    ensures StatsOutcome(pages, automation).Failure? <==>
              Traverse(pages).Failure? || !StatusOk(automation.status)
    ensures Traverse(pages).Failure? ==>
              StatsOutcome(pages, automation) == Failure(Traverse(pages).error)
    ensures Traverse(pages).Success? && !StatusOk(automation.status) ==>
              StatsOutcome(pages, automation) == Failure(AutomationFailed(automation.status))
  {
  }

  /** In a successful stats body every variant has at least one member,
      its share of the total is a percentage in (0, 100], and its sent,
      opened and clicked counts are bounded by its member count. */
  lemma StatsVariantsBounded(pages: seq<PageResponse>, automation: AutomationResponse, k: string)
    requires Ends(pages)
    requires StatsOutcome(pages, automation).Success?
    requires k in StatsOutcome(pages, automation).value.variants
    ensures var body := StatsOutcome(pages, automation).value;
            var v := body.variants[k];
            && 0 < v.count <= body.total
            && v.percentage.Percent?
            && 0.0 < v.percentage.value <= 100.0
            && v.numSent <= v.count && v.numOpened <= v.count && v.numClicked <= v.count
  {
    var subs := Traverse(pages).value;
    var m := Aggregated(subs);
    AggregatedBuckets(subs, k);
    AggregatedTotal(subs);
    SumCountsBound(m, k);
    RatioBounds(m[k].count, |subs|);
  }

  /** A listing that never ends does not keep a failed automation fetch
      from failing the action. */
  lemma AutomationFailureSettles(pages: seq<PageResponse>, automation: AutomationResponse)
    requires !Ends(pages) && !StatusOk(automation.status)
    ensures StatsOutcome(pages, automation) == Failure(AutomationFailed(automation.status))
  {
  }

  /** The zero-denominator guards of a variant summary: the percentage is
      "0.0" exactly when there are no subscribers, the open and click
      rates exactly when no one in the bucket was sent an email; otherwise
      each is its part over its whole, times 100. */
  lemma VariantRateGuards(variants: map<string, Bucket>, total: nat, k: string)
    requires k in variants
    ensures var v := Summaries(variants, total)[k];
            && (v.percentage == ZeroText <==> total == 0)
            && (total > 0 ==> v.percentage == Percent((v.count as real / total as real) * 100.0))
            && (v.openRate == ZeroText <==> v.numSent == 0)
            && (v.clickRate == ZeroText <==> v.numSent == 0)
            && (v.numSent > 0 ==>
                  v.openRate == Percent((v.numOpened as real / v.numSent as real) * 100.0))
            && (v.numSent > 0 ==>
                  v.clickRate == Percent((v.numClicked as real / v.numSent as real) * 100.0))
  {
  }

  /** A variant's open rate can exceed 100%: `opened` is bounded by the
      bucket's member count, not by its `sent` count. Two subscribers of
      variant "A" who both opened, only one of whom was sent an email,
      give an open rate of 200. */
  lemma OpenRateAboveHundred()
    ensures var subs := [Subscriber(Some("A"), 1, 0, 1), Subscriber(Some("A"), 1, 0, 0)];
            && "A" in Aggregated(subs)
            && Summaries(Aggregated(subs), |subs|)["A"].openRate == Percent(200.0)
  {
    var subs := [Subscriber(Some("A"), 1, 0, 1), Subscriber(Some("A"), 1, 0, 0)];
    assert Label(subs[0]) == "A";
    assert subs[..1][..0] == [];
    assert Tally(subs[..1], "A") == Bucket(1, 1, 0, 1);
    assert Tally(subs, "A") == Bucket(2, 2, 0, 1);
  }

  /** With every automation field missing, the summary holds the
      defaults: name "Unknown", not enabled, not broken, empty stats,
      zero counts and "0.0" rates. */
  lemma AutomationDefaults(a: Automation)
    ensures var s := SummarizeAutomation(a);
            && (s.name == "Unknown" <==> !Truthy(a.name) || a.name.value == "Unknown")
            && (Truthy(a.name) ==> s.name == a.name.value)
            && (s.enabled <==> a.enabled == Some(true))
            && (s.broken <==> a.broken == Some(true))
            && (s.emailsCount == if a.emailsCount.Some? then a.emailsCount.value else 0)
    ensures var s := SummarizeAutomation(a);
            a.stats.None? ==>
              && s.stats == NoStats
              && s.queueCount == 0 && s.completedCount == 0
              && s.sent == 0 && s.opens == 0 && s.clicks == 0
              && s.openRate == ZeroText && s.clickRate == ZeroText
    ensures var s := SummarizeAutomation(a);
            a.stats.Some? ==>
              var st := a.stats.value;
              && s.stats == st
              && (st.queueCount.None? ==> s.queueCount == 0)
              && (st.completedCount.None? ==> s.completedCount == 0)
              && (st.sentCount.None? ==> s.sent == 0)
              && (st.openCount.None? ==> s.opens == 0)
              && (st.clickCount.None? ==> s.clicks == 0)
    ensures SummarizeAutomation(Automation(None, None, None, None, None))
              == AutomationSummary("Unknown", false, false, NoStats, 0, 0, 0, 0, 0, 0, ZeroText, ZeroText)
  {
  }

  /** The automation's open and click rates read "0.0" exactly when the
      sent count is missing or not positive; otherwise they are the
      percentage of the sent count, or NaN when the numerator is missing. */
  lemma AutomationRates(a: Automation)
    ensures var s := SummarizeAutomation(a);
            var sent := s.stats.sentCount;
            && (s.openRate == ZeroText <==> !(sent.Some? && sent.value > 0))
            && (s.clickRate == ZeroText <==> !(sent.Some? && sent.value > 0))
            && (sent.Some? && sent.value > 0 && s.stats.openCount.None? ==> s.openRate == NotANumber)
            && (sent.Some? && sent.value > 0 && s.stats.clickCount.None? ==> s.clickRate == NotANumber)
            && (sent.Some? && sent.value > 0 && 0 <= s.opens <= sent.value && s.stats.openCount.Some? ==>
                  s.openRate.Percent? && 0.0 <= s.openRate.value <= 100.0)
            && (sent.Some? && sent.value > 0 && 0 <= s.clicks <= sent.value && s.stats.clickCount.Some? ==>
                  s.clickRate.Percent? && 0.0 <= s.clickRate.value <= 100.0)
  {
    var s := SummarizeAutomation(a);
    var sent := s.stats.sentCount;
    if sent.Some? && sent.value > 0 && 0 <= s.opens <= sent.value && s.stats.openCount.Some? {
      RatioBounds(s.opens, sent.value);
    }
    if sent.Some? && sent.value > 0 && 0 <= s.clicks <= sent.value && s.stats.clickCount.Some? {
      RatioBounds(s.clicks, sent.value);
    }
  }
}
