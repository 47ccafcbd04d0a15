/**
 `POST /api/design/deploy` (app/api/design/deploy/route.ts): deploys the
 latest version of a tenant's chat and records the deployment inside the
 existing design: it replaces the deployment, refreshes `lastUpdated` and
 leaves the other design fields as they were.
 */
module DeployRoute {
  import opened Js
  import opened Subdomains
  import opened V0Sdk
  import opened V0Deployments
  import opened Http

  /** The JSON request body `{ subdomain }`. */
  datatype DeployRequest = DeployRequest(subdomain: Option<string>)

  const MissingSubdomain: string := "Subdomain is required"
  const NoDesignMessage: string := "No design found for this subdomain. Create a design first."
  const FailurePrefix: string := "Failed to create deployment: "

  /** `POST(request)` */
  function Post(store: Store, request: DeployRequest, now: int, api: Api): (h: Handled)
    ensures h.response.status == 400 <==> !Truthy(request.subdomain)
    ensures h.response.status == 400 ==> h == Handled(Response(400, ErrorReply(MissingSubdomain)), store, [])
    ensures Truthy(request.subdomain) ==>
      var subdomain := request.subdomain.value;
      var chatId := ChatIdOf(GetSubdomainData(store, subdomain));
      && (!Truthy(chatId) ==> h == Handled(Response(404, ErrorReply(NoDesignMessage)), store, []))
      && (Truthy(chatId) ==>
            // the deployment is created for the stored chat, without a version or project
            var created := CreateV0Deployment(chatId.value, None, None, now, api);
            && h.calls == created.calls
            && h.calls[0] == ChatsGet(chatId.value)
            && (h.response.status == 200 <==> created.outcome.Returned?)
            && (created.outcome.Threw? ==>
                  h == Handled(Response(500, ErrorReply(FailurePrefix + MessageOf(created.outcome.thrown))), store, h.calls))
            && (h.response.status == 200 ==>
                  var key := KeyFor(subdomain);
                  var prior := store[key];
                  var before := prior.design.value;
                  key in h.store &&
                  var record := h.store[key];
                  && OnlyKeyChanged(store, h.store, key)
                  && record.emoji == prior.emoji
                  && record.createdAt == prior.createdAt
                  // the design is kept, with the deployment replaced and the time refreshed
                  && record.design.Some?
                  && record.design.value.chatId == before.chatId
                  && record.design.value.content == before.content
                  && record.design.value.files == before.files
                  && record.design.value.webUrl == before.webUrl
                  && record.design.value.previewUrl == before.previewUrl
                  && record.design.value.demo == before.demo
                  && record.design.value.lastUpdated == now
                  && record.design.value.deployment == Some(created.outcome.value)
                  && StageOf(Some(record)) == Deploying
                  // the response carries the stored deployment
                  && h.response.body == DeploymentReply(record.design.value.deployment.value)))
  {
    if !Truthy(request.subdomain) then
      Handled(Response(400, ErrorReply(MissingSubdomain)), store, [])
    else
      var subdomain := request.subdomain.value;
      var existing := GetSubdomainData(store, subdomain);
      var chatId := ChatIdOf(existing);
      if !Truthy(chatId) then
        Handled(Response(404, ErrorReply(NoDesignMessage)), store, [])
      else
        var created := CreateV0Deployment(chatId.value, None, None, now, api);
        match created.outcome
        case Threw(e) => Handled(Response(500, ErrorReply(FailurePrefix + MessageOf(e))), store, created.calls)
        case Returned(deployment) =>
          var design := existing.value.design.value.(deployment := Some(deployment), lastUpdated := now);
          match UpdateSubdomainDesign(store, subdomain, Some(design))
          case Threw(e) => Handled(Response(500, ErrorReply(FailurePrefix + MessageOf(e))), store, created.calls)
          case Returned(written) =>
            Handled(Response(200, DeploymentReply(deployment)), written.store, created.calls)
  }
}
