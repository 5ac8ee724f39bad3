/** The entry point of the dashboard function (`exports.handler` of
    dashboard-api.js): validate the `action` query parameter, dispatch,
    and turn an error thrown by the stats action into a 500 response. */
module Dashboard {
  import opened Common
  import opened Pagination
  import opened Stats
  import opened Pipeline

  /** The JSON body of a dashboard response. */
  datatype Body =
    | ErrorBody(error: string)
    | StatsReport(stats: StatsBody)
    | HealthReport(report: PipelineReport)

  /** A dashboard response; the CORS and content-type headers are the
      same on every response and are left out. */
  datatype Response = Response(statusCode: nat, body: Body)

  /** Everything the provider and the deployed site answer during one
      invocation: the listing pages and the automation answer used by the
      stats action, and the four probe outcomes of the health check. */
  datatype World = World(pages: seq<PageResponse>, automation: AutomationResponse, probes: Probes)

  const InvalidActionMessage: string :=
    "Missing or invalid ?action= parameter. Use stats or test-pipeline."

  /** The accepted values of `action`. */
  predicate ValidAction(action: Option<string>)
  {
    Truthy(action) && action.value in ["stats", "test-pipeline"]
  }

  /** The response for an outcome of the stats action: 200 with the body,
      or 500 with the thrown error's message. */
  function StatsResponse(r: Result<StatsBody, FetchError>): Response
  {
    match r
    case Success(body) => Response(200, StatsReport(body))
    case Failure(e) => Response(500, ErrorBody(ErrorMessage(e)))
  }

  /** `exports.handler`: reject a missing or unknown action with 400, run
      the stats action (an error it throws becomes 500 with the error's
      message) or the health check (which always answers 200). */
  method Handle(action: Option<string>, apiKey: Option<string>, world: World) returns (response: Response)
    requires action == Some("stats") ==> Ends(world.pages) || !StatusOk(world.automation.status)
    ensures !ValidAction(action) ==> response == Response(400, ErrorBody(InvalidActionMessage))
    ensures action == Some("stats") ==>
              response == StatsResponse(StatsOutcome(world.pages, world.automation))
    ensures action == Some("test-pipeline") ==>
              response == Response(200, HealthReport(PipelineOutcome(apiKey, world.probes)))
    ensures response.statusCode in {200, 400, 500}
    ensures response.statusCode == 500 ==> action == Some("stats")
  {
    if !Truthy(action) || action.value !in ["stats", "test-pipeline"] {
      return Response(400, ErrorBody(InvalidActionMessage));
    }
    if action.value == "stats" {
      var outcome := HandleStats(world.pages, world.automation);
      match outcome
      case Success(body) =>
        response := Response(200, StatsReport(body));
      case Failure(e) =>
        response := Response(500, ErrorBody(ErrorMessage(e)));
    } else {
      var report := TestPipeline(apiKey, world.probes);
      response := Response(200, HealthReport(report));
    }
  }

  /** The stats action answers 500 exactly when one of its two fetches
      fails, with the message naming the failing status. */
  lemma StatsErrorResponse(world: World)
    requires Ends(world.pages)
    ensures var r := StatsResponse(StatsOutcome(world.pages, world.automation));
            && (r.statusCode == 500 <==>
                  Traverse(world.pages).Failure? || !StatusOk(world.automation.status))
            && (Traverse(world.pages).Failure? ==>
                  r.body == ErrorBody("MailerLite API error: "
                                      + NatToString(Traverse(world.pages).error.status)))
            && (Traverse(world.pages).Success? && !StatusOk(world.automation.status) ==>
                  r.body == ErrorBody("Automation fetch error: "
                                      + NatToString(world.automation.status)))
  {
    StatsAllOrNothing(world.pages, world.automation);
  }
}
