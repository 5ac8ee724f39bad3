/** The signup function (subscribe.js): a chain of early returns that
    checks the method, the body, the email and the key, and then relays
    the signup to the provider and maps the provider's answer. The
    provider is a parameter: a function from the payload sent to the
    answer received. */
module Subscribe {
  import opened Common

  /** What `JSON.parse(event.body)` gives the handler: nothing usable (the
      parse throws, or it gives `null`, whose fields cannot be read), or
      the body's `email` and `variant` fields (both absent when the body
      is, say, a number or a string). */
  datatype ParsedBody = Unparseable | Parsed(email: Option<string>, variant: Option<string>)

  /** The incoming event, as far as the handler reads it. */
  datatype SignupRequest = SignupRequest(httpMethod: string, body: ParsedBody)

  /** The JSON sent to the provider's subscriber-creation endpoint:
      `fields.ad_variant` is present only when there is a variant. */
  datatype Payload = Payload(email: string, groups: seq<string>, adVariant: Option<string>)

  /** The provider's answer: its status and the `message` of its body. */
  datatype ProviderReply = ProviderReply(status: nat, message: Option<string>)

  /** The JSON body of a signup response. */
  datatype Body =
    | ErrorBody(error: string)
    | SuccessBody
    | FailureBody(error: string)

  datatype Response = Response(statusCode: nat, body: Body)

  /** One invocation: the response, and the payload sent to the provider
      (None when the handler answered before calling it). */
  datatype Exchange = Exchange(response: Response, sent: Option<Payload>)

  /** The payload for an email and the (already defaulted) variant: the
      fixed group always, the variant only when it is truthy. */
  function SignupPayload(email: string, variant: Option<string>): (p: Payload)
    ensures p.email == email
    ensures p.groups == [GroupId]
    ensures p.adVariant.Some? <==> Truthy(variant)
    ensures p.adVariant.Some? ==> p.adVariant == variant
  {
    Payload(email, [GroupId], if Truthy(variant) then variant else None)
  }

  /** `response.ok || status === 200 || status === 201`. */
  predicate Accepted(r: ProviderReply)
  {
    StatusOk(r.status) || r.status == 200 || r.status == 201
  }

  /** The response mapped from the provider's answer. */
  function ReplyResponse(r: ProviderReply): Response
  {
    if Accepted(r) then Response(200, SuccessBody)
    else Response(r.status, FailureBody(OrElse(r.message, "Signup failed")))
  }

  /** The signup handler. Each guard answers before the next is looked
      at: a method other than POST, then an unreadable body, then a
      missing email, then a missing key; only a request that passes all
      four reaches the provider. */
  function HandleSignup(req: SignupRequest, apiKey: Option<string>, provider: Payload -> ProviderReply)
      : (x: Exchange)
    ensures req.httpMethod != "POST" ==>
              x == Exchange(Response(405, ErrorBody("Method not allowed")), None)
    ensures req.httpMethod == "POST" && req.body.Unparseable? ==>
              x == Exchange(Response(400, ErrorBody("Invalid request body")), None)
    ensures req.httpMethod == "POST" && req.body.Parsed? && !Truthy(req.body.email) ==>
              x == Exchange(Response(400, ErrorBody("Email is required")), None)
    ensures req.httpMethod == "POST" && req.body.Parsed? && Truthy(req.body.email) && !Truthy(apiKey) ==>
              x == Exchange(Response(500, ErrorBody("Server configuration error")), None)
    ensures x.sent.Some? <==>
              req.httpMethod == "POST" && req.body.Parsed? && Truthy(req.body.email) && Truthy(apiKey)
    ensures x.sent.Some? ==>
              && x.sent.value == SignupPayload(req.body.email.value, req.body.variant)
              && x.response == ReplyResponse(provider(x.sent.value))
  {
    if req.httpMethod != "POST" then
      Exchange(Response(405, ErrorBody("Method not allowed")), None)
    else if req.body.Unparseable? then
      Exchange(Response(400, ErrorBody("Invalid request body")), None)
    else if !Truthy(req.body.email) then
      Exchange(Response(400, ErrorBody("Email is required")), None)
    else if !Truthy(apiKey) then
      Exchange(Response(500, ErrorBody("Server configuration error")), None)
    else
      var payload := SignupPayload(req.body.email.value, req.body.variant);
      Exchange(ReplyResponse(provider(payload)), Some(payload))
  }

  /** The provider's answer maps to 200 `{success: true}` exactly when its
      status is 2xx (the explicit 200 and 201 tests add nothing to `ok`);
      otherwise the provider's own status is passed through with its
      message, or "Signup failed" when it gives none. */
  lemma ReplyMapping(r: ProviderReply)
    ensures Accepted(r) <==> StatusOk(r.status)
    ensures StatusOk(r.status) ==> ReplyResponse(r) == Response(200, SuccessBody)
    ensures !StatusOk(r.status) ==>
              && ReplyResponse(r).statusCode == r.status
              && ReplyResponse(r).body.FailureBody?
              && (Truthy(r.message) ==> ReplyResponse(r).body.error == r.message.value)
              && (!Truthy(r.message) ==> ReplyResponse(r).body.error == "Signup failed")
  {
  }

  /** A method other than POST is refused before the body, the key or
      the provider play any part. */
  lemma NonPostIgnoresEverythingElse(
      req: SignupRequest, apiKey: Option<string>, provider: Payload -> ProviderReply,
      req': SignupRequest, apiKey': Option<string>, provider': Payload -> ProviderReply)
    requires req.httpMethod != "POST" && req'.httpMethod != "POST"
    ensures HandleSignup(req, apiKey, provider) == HandleSignup(req', apiKey', provider')
    ensures HandleSignup(req, apiKey, provider).response.statusCode == 405
  {
  }

  /** The key is looked at only after the email: a request without an
      email gets 400 whether or not the key is configured. */
  lemma EmailCheckedBeforeKey(req: SignupRequest, provider: Payload -> ProviderReply, apiKey: Option<string>)
    requires req.httpMethod == "POST" && req.body.Parsed? && !Truthy(req.body.email)
    ensures HandleSignup(req, apiKey, provider) == HandleSignup(req, None, provider)
    ensures HandleSignup(req, apiKey, provider).response.statusCode == 400
  {
  }

  /** A successful signup response is only ever the provider's acceptance
      of a payload for the request's email in the fixed group, and a
      response with status 200 always says `success: true`. */
  lemma SuccessMeansRelayed(req: SignupRequest, apiKey: Option<string>, provider: Payload -> ProviderReply)
    ensures var x := HandleSignup(req, apiKey, provider);
            && (x.response.body == SuccessBody <==>
                  x.sent.Some? && StatusOk(provider(x.sent.value).status))
            && (x.response.body == SuccessBody ==>
                  x.sent.value.email == req.body.email.value && x.sent.value.groups == [GroupId])
            && (x.response.statusCode == 200 ==> x.response.body == SuccessBody)
  {
    var x := HandleSignup(req, apiKey, provider);
    if x.sent.Some? {
      ReplyMapping(provider(x.sent.value));
    }
  }
}
