/**
 The deployment gateway (lib/v0-deployments.ts): creating a deployment of a
 chat's version, reading a deployment's status back, and deleting one.
 */
module V0Deployments {
  import opened Js
  import opened Subdomains
  import opened V0Sdk

  const DeployPrefix: string := "Failed to create deployment: "
  const NoVersionMessage: string := "No version found for chat - cannot deploy"

  /** `chatDetails.latestVersion?.id` */
  function LatestVersionId(chat: Chat): Option<string> {
    if chat.latestVersion.Some? then chat.latestVersion.value.id else None
  }

  /** The version to deploy: a supplied `versionId` as it is, with no request; otherwise
      the latest version of the chat, fetched with `chats.get`, and an error when the chat
      has none. Errors are not wrapped yet. */
  function ResolveVersion(chatId: string, versionId: Option<string>, api: Api): (t: Traced<string>)
    ensures Truthy(versionId) ==> t == Traced(Returned(versionId.value), [])
    ensures !Truthy(versionId) ==>
      var reply := api.chatsGet(chatId);
      && t.calls == [ChatsGet(chatId)]
      && (t.outcome.Returned? <==> reply.Returned? && Truthy(LatestVersionId(reply.value)))
      && (t.outcome.Returned? ==> t.outcome.value == LatestVersionId(reply.value).value)
      && (reply.Threw? ==> t.outcome == Threw(reply.thrown))
      && (reply.Returned? && !Truthy(LatestVersionId(reply.value)) ==> t.outcome == Threw(Error(NoVersionMessage)))
  {
    if Truthy(versionId) then Traced(Returned(versionId.value), [])
    else
      var calls := [ChatsGet(chatId)];
      match api.chatsGet(chatId)
      case Threw(e) => Traced(Threw(e), calls)
      case Returned(chat) =>
        var latest := LatestVersionId(chat);
        if Truthy(latest) then Traced(Returned(latest.value), calls)
        else Traced(Threw(Error(NoVersionMessage)), calls)
  }

  /** `createV0Deployment(chatId, versionId?, projectId?)`: resolves the version, then sends
      one `deployments.create` for it, with `projectId` defaulting to the chat id. A created
      deployment is `pending`, stamped `now`, with id and urls copied from the reply. Every
      failure, including a missing version, is re-thrown with the "Failed to create
      deployment: " prefix, and a failed resolution creates nothing. */
  function CreateV0Deployment(
    chatId: string, versionId: Option<string>, projectId: Option<string>, now: int, api: Api
  ): (t: Traced<Deployment>)
    ensures var v := ResolveVersion(chatId, versionId, api);
      && (v.outcome.Threw? ==>
            t == Traced(Threw(Rethrow(DeployPrefix, v.outcome.thrown)), v.calls))
      && (v.outcome.Returned? ==>
            var request := DeploymentsCreate(Or(projectId, chatId), chatId, v.outcome.value);
            var reply := api.deploymentsCreate(request.projectId, request.chatId, request.versionId);
            && t.calls == v.calls + [request]
            && (t.outcome.Returned? <==> reply.Returned?)
            && (reply.Threw? ==> t.outcome == Threw(Rethrow(DeployPrefix, reply.thrown)))
            && (reply.Returned? ==>
                  && t.outcome.value.status == Pending
                  && t.outcome.value.deployedAt == now
                  && t.outcome.value.id == reply.value.id
                  && t.outcome.value.webUrl == reply.value.webUrl
                  && t.outcome.value.apiUrl == reply.value.apiUrl
                  && t.outcome.value.inspectorUrl == reply.value.inspectorUrl))
  {
    var v := ResolveVersion(chatId, versionId, api);
    match v.outcome
    case Threw(e) => Traced(Threw(Rethrow(DeployPrefix, e)), v.calls)
    case Returned(version) =>
      var project := Or(projectId, chatId);
      var calls := v.calls + [DeploymentsCreate(project, chatId, version)];
      match api.deploymentsCreate(project, chatId, version)
      case Threw(e) => Traced(Threw(Rethrow(DeployPrefix, e)), calls)
      case Returned(d) =>
        Traced(Returned(Deployment(d.id, d.webUrl, d.apiUrl, d.inspectorUrl, Pending, now)), calls)
  }

  /** A supplied version is deployed as it is: the only request is the creation, for that
      version, under the given project or else the chat id. */
  lemma SuppliedVersionSkipsLookup(
    chatId: string, versionId: string, projectId: Option<string>, now: int, api: Api)
    requires versionId != ""
    ensures CreateV0Deployment(chatId, Some(versionId), projectId, now, api).calls
      == [DeploymentsCreate(Or(projectId, chatId), chatId, versionId)]
  {
  }

  /** Without a version, a chat that has no latest version yields the wrapped "No version
      found" error after the single lookup, and no deployment is requested. */
  lemma MissingVersionCreatesNothing(chatId: string, projectId: Option<string>, now: int, api: Api)
    requires api.chatsGet(chatId).Returned? && !Truthy(LatestVersionId(api.chatsGet(chatId).value))
    ensures CreateV0Deployment(chatId, None, projectId, now, api)
      == Traced(Threw(Error(DeployPrefix + NoVersionMessage)), [ChatsGet(chatId)])
  {
  }

  /** `getDeploymentStatus(deploymentId)`: one `deployments.get` request; never throws.
      A failure yields nothing (`null`); otherwise the deployment as read, with a missing
      status taken as `pending` and `deployedAt` set to the time of the check. */
  function GetDeploymentStatus(deploymentId: string, now: int, api: Api): (t: Traced<Option<Deployment>>)
    ensures t.calls == [DeploymentsGet(deploymentId)]
    ensures t.outcome.Returned?
    ensures var reply := api.deploymentsGet(deploymentId);
      && (t.outcome.value.Some? <==> reply.Returned?)
      && (reply.Returned? ==>
            var d := t.outcome.value.value;
            && d.id == reply.value.id
            && d.webUrl == reply.value.webUrl
            && d.apiUrl == reply.value.apiUrl
            && d.inspectorUrl == reply.value.inspectorUrl
            && (reply.value.status.Some? ==> d.status == reply.value.status.value)
            && (reply.value.status.None? ==> d.status == Pending)
            && d.deployedAt == now)
  {
    var calls := [DeploymentsGet(deploymentId)];
    match api.deploymentsGet(deploymentId)
    case Threw(_) => Traced(Returned(None), calls)
    case Returned(d) =>
      var status := if d.status.Some? then d.status.value else Pending;
      Traced(Returned(Some(Deployment(d.id, d.webUrl, d.apiUrl, d.inspectorUrl, status, now))), calls)
  }

  /** `deleteDeployment(deploymentId)`: one `deployments.delete` request; never throws, and
      answers whether the deletion succeeded. */
  function DeleteDeployment(deploymentId: string, api: Api): (t: Traced<bool>)
    ensures t.calls == [DeploymentsDelete(deploymentId)]
    ensures t.outcome.Returned?
    ensures t.outcome.value <==> api.deploymentsDelete(deploymentId).Returned?
  {
    var calls := [DeploymentsDelete(deploymentId)];
    match api.deploymentsDelete(deploymentId)
    case Threw(_) => Traced(Returned(false), calls)
    case Returned(_) => Traced(Returned(true), calls)
  }
}
