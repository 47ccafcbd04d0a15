/**
 The design lifecycle across the three handlers: which stage each one moves
 a tenant to, what a failure leaves behind, and how a generated design is
 carried through later requests made under any spelling of the same name.
 */
module Lifecycle {
  import opened Js
  import opened Subdomains
  import opened V0Sdk
  import opened V0
  import opened Http
  import GenerateRoute
  import UpdateRoute
  import DeployRoute

  datatype Operation = Generate | Update | Deploy

  /** The stage transitions the lifecycle allows: generation from anywhere to Designed,
      update and deployment only once a design exists, to Designed and Deploying. */
  predicate Transition(op: Operation, from: Stage, to: Stage) {
    match op
    case Generate => to == Designed
    case Update => from != NoDesign && to == Designed
    case Deploy => from != NoDesign && to == Deploying
  }

  function StageAt(store: Store, subdomain: string): Stage {
    StageOf(GetSubdomainData(store, subdomain))
  }

  /** What every handler guarantees about the database: a successful request moves the
      named tenant along an allowed transition, a refused or failed one changes nothing, and
      no tenant under another sanitised name is touched. */
  ghost predicate Respects(op: Operation, store: Store, subdomain: string, h: Handled) {
    && (h.response.status == 200 ==> Transition(op, StageAt(store, subdomain), StageAt(h.store, subdomain)))
    && (h.response.status != 200 ==> h.store == store)
    && forall other :: Sanitise(other) != Sanitise(subdomain) ==>
         GetSubdomainData(h.store, other) == GetSubdomainData(store, other)
  }

  lemma FrameOutsideKey(store: Store, after: Store, subdomain: string, other: string)
    requires OnlyKeyChanged(store, after, KeyFor(subdomain))
    requires Sanitise(other) != Sanitise(subdomain)
    ensures GetSubdomainData(after, other) == GetSubdomainData(store, other)
  {
    SameKeyIffSameSanitised(other, subdomain);
  }

  lemma GenerateRespectsLifecycle(store: Store, subdomain: string, prompt: Option<string>, now: int, api: Api)
    ensures Respects(Generate, store, subdomain, GenerateRoute.Post(store, GenerateRoute.GenerateRequest(Some(subdomain), prompt), now, api))
  {
    var h := GenerateRoute.Post(store, GenerateRoute.GenerateRequest(Some(subdomain), prompt), now, api);
    forall other | Sanitise(other) != Sanitise(subdomain)
      ensures GetSubdomainData(h.store, other) == GetSubdomainData(store, other)
    {
      if h.response.status == 200 {
        FrameOutsideKey(store, h.store, subdomain, other);
      }
    }
  }

  lemma UpdateRespectsLifecycle(store: Store, subdomain: string, feedback: Option<string>, now: int, api: Api)
    ensures Respects(Update, store, subdomain, UpdateRoute.Post(store, UpdateRoute.UpdateRequest(Some(subdomain), feedback), now, api))
  {
    var h := UpdateRoute.Post(store, UpdateRoute.UpdateRequest(Some(subdomain), feedback), now, api);
    forall other | Sanitise(other) != Sanitise(subdomain)
      ensures GetSubdomainData(h.store, other) == GetSubdomainData(store, other)
    {
      if h.response.status == 200 {
        FrameOutsideKey(store, h.store, subdomain, other);
      }
    }
  }

  lemma DeployRespectsLifecycle(store: Store, subdomain: string, now: int, api: Api)
    ensures Respects(Deploy, store, subdomain, DeployRoute.Post(store, DeployRoute.DeployRequest(Some(subdomain)), now, api))
  {
    var h := DeployRoute.Post(store, DeployRoute.DeployRequest(Some(subdomain)), now, api);
    forall other | Sanitise(other) != Sanitise(subdomain)
      ensures GetSubdomainData(h.store, other) == GetSubdomainData(store, other)
    {
      if h.response.status == 200 {
        FrameOutsideKey(store, h.store, subdomain, other);
      }
    }
  }

  /** A tenant without a record can be neither updated nor deployed: both answer 404,
      send nothing to v0 and change nothing. */
  lemma NoRecordIsNotFound(store: Store, subdomain: string, feedback: string, now: int, api: Api)
    requires subdomain != "" && feedback != ""
    requires GetSubdomainData(store, subdomain).None?
    ensures var u := UpdateRoute.Post(store, UpdateRoute.UpdateRequest(Some(subdomain), Some(feedback)), now, api);
      u.response.status == 404 && u.store == store && u.calls == []
    ensures var d := DeployRoute.Post(store, DeployRoute.DeployRequest(Some(subdomain)), now, api);
      d.response.status == 404 && d.store == store && d.calls == []
  {
  }

  /** A design generated under one name keeps its chat through an update made under any
      name with the same sanitised form: the update revises the generated chat, and the
      stored chat id afterwards is the one generation returned. */
  lemma GenerateThenUpdateKeepsLineage(
    store: Store, name: string, alias: string, prompt: string, feedback: string,
    generatedAt: int, updatedAt: int, api: Api)
    requires name != "" && alias != "" && prompt != "" && feedback != ""
    requires Sanitise(alias) == Sanitise(name)
    requires api.chatsCreate(EnhancedPrompt(prompt)).Returned?
    requires Truthy(api.chatsCreate(EnhancedPrompt(prompt)).value.id)
    requires api.chatsSendMessage(api.chatsCreate(EnhancedPrompt(prompt)).value.id.value, Trim(feedback)).Returned?
    ensures var chatId := api.chatsCreate(EnhancedPrompt(prompt)).value.id.value;
      var g := GenerateRoute.Post(store, GenerateRoute.GenerateRequest(Some(name), Some(prompt)), generatedAt, api);
      var u := UpdateRoute.Post(g.store, UpdateRoute.UpdateRequest(Some(alias), Some(feedback)), updatedAt, api);
      && g.response.status == 200
      && u.calls == [ChatsSendMessage(chatId, Trim(feedback))]
      && u.response.status == 200
      && ChatIdOf(GetSubdomainData(u.store, name)) == Some(chatId)
      && StageAt(u.store, name) == Designed
  {
    SameKeyIffSameSanitised(alias, name);
  }

  // ---------------------------------------------------------------------------
  // Every stored design names its chat
  // ---------------------------------------------------------------------------

  /** No stored design has an empty chat id: generation stores only the truthy id v0
      returned, and update and deployment keep the id they found. */
  ghost predicate ChatIdsPresent(store: Store) {
    forall k :: k in store && store[k].design.Some? ==> store[k].design.value.chatId != ""
  }

  lemma GeneratePreservesChatIds(store: Store, request: GenerateRoute.GenerateRequest, now: int, api: Api)
    requires ChatIdsPresent(store)
    ensures ChatIdsPresent(GenerateRoute.Post(store, request, now, api).store)
  {
  }

  lemma UpdatePreservesChatIds(store: Store, request: UpdateRoute.UpdateRequest, now: int, api: Api)
    requires ChatIdsPresent(store)
    ensures ChatIdsPresent(UpdateRoute.Post(store, request, now, api).store)
  {
  }

  lemma DeployPreservesChatIds(store: Store, request: DeployRoute.DeployRequest, now: int, api: Api)
    requires ChatIdsPresent(store)
    ensures ChatIdsPresent(DeployRoute.Post(store, request, now, api).store)
  {
  }

  /** In a database where every design names its chat, a well-formed update or deployment
      reaches v0 exactly when the tenant has a design: from NoDesign both answer 404 without
      a request, and from every other stage update sends its one `chats.sendMessage` and
      deployment starts with its `chats.get`. */
  lemma DesignedTenantReachesV0(store: Store, subdomain: string, feedback: string, now: int, api: Api)
    requires ChatIdsPresent(store)
    requires subdomain != "" && feedback != ""
    ensures var u := UpdateRoute.Post(store, UpdateRoute.UpdateRequest(Some(subdomain), Some(feedback)), now, api);
      && (StageAt(store, subdomain) == NoDesign ==> u.response.status == 404 && u.calls == [])
      && (StageAt(store, subdomain) != NoDesign ==>
            u.response.status != 404 && |u.calls| == 1 && u.calls[0].ChatsSendMessage?)
    ensures var d := DeployRoute.Post(store, DeployRoute.DeployRequest(Some(subdomain)), now, api);
      && (StageAt(store, subdomain) == NoDesign ==> d.response.status == 404 && d.calls == [])
      && (StageAt(store, subdomain) != NoDesign ==>
            d.response.status != 404 && |d.calls| >= 1 && d.calls[0].ChatsGet?)
  {
  }
}
