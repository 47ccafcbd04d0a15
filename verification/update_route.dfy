/**
 `POST /api/design/update` (app/api/design/update/route.ts): revises an
 existing design from feedback within the same chat, replacing the design
 as a whole and so dropping any deployment.
 */
module UpdateRoute {
  import opened Js
  import opened Subdomains
  import opened V0Sdk
  import opened V0
  import opened Http

  /** The JSON request body `{ subdomain, feedback }`. */
  datatype UpdateRequest = UpdateRequest(subdomain: Option<string>, feedback: Option<string>)

  const MissingFields: string := "Subdomain and feedback are required"
  const NoDesignMessage: string := "No existing design found for this subdomain"
  const FailureMessage: string := "Failed to update design"

  /** `POST(request)` */
  function Post(store: Store, request: UpdateRequest, now: int, api: Api): (h: Handled)
    ensures h.response.status == 400 <==> !Truthy(request.subdomain) || !Truthy(request.feedback)
    ensures h.response.status == 400 ==> h == Handled(Response(400, ErrorReply(MissingFields)), store, [])
    ensures Truthy(request.subdomain) && Truthy(request.feedback) ==>
      var subdomain := request.subdomain.value;
      var chatId := ChatIdOf(GetSubdomainData(store, subdomain));
      // no record, no design or no chat id: refused before v0 is asked anything
      && (!Truthy(chatId) ==> h == Handled(Response(404, ErrorReply(NoDesignMessage)), store, []))
      && (Truthy(chatId) ==>
            var message := Trim(request.feedback.value);
            var reply := api.chatsSendMessage(chatId.value, message);
            // the revision is asked for on the stored chat
            && h.calls == [ChatsSendMessage(chatId.value, message)]
            && (h.response.status == 200 <==> reply.Returned?)
            // any failure is reported with a fixed message, without the upstream text
            && (reply.Threw? ==> h == Handled(Response(500, ErrorReply(FailureMessage)), store, h.calls))
            && (h.response.status == 200 ==>
                  var key := KeyFor(subdomain);
                  var prior := store[key];
                  key in h.store &&
                  var record := h.store[key];
                  && OnlyKeyChanged(store, h.store, key)
                  && record.emoji == prior.emoji
                  && record.createdAt == prior.createdAt
                  // same lineage, new content, no deployment
                  && record.design.Some?
                  && record.design.value.chatId == prior.design.value.chatId
                  && record.design.value.content == Or(reply.value.url, "")
                  && record.design.value.files == Some(FilesOf(reply.value))
                  && record.design.value.webUrl == reply.value.webUrl
                  && record.design.value.previewUrl == reply.value.previewUrl
                  && record.design.value.demo == reply.value.demo
                  && record.design.value.deployment.None?
                  && record.design.value.lastUpdated == now
                  && StageOf(Some(record)) == Designed
                  && h.response.body == DesignReply(record.design.value)))
  {
    if !Truthy(request.subdomain) || !Truthy(request.feedback) then
      Handled(Response(400, ErrorReply(MissingFields)), store, [])
    else
      var subdomain := request.subdomain.value;
      var chatId := ChatIdOf(GetSubdomainData(store, subdomain));
      if !Truthy(chatId) then
        Handled(Response(404, ErrorReply(NoDesignMessage)), store, [])
      else
        var updated := UpdateLandingPage(chatId.value, request.feedback.value, api);
        match updated.outcome
        case Threw(_) => Handled(Response(500, ErrorReply(FailureMessage)), store, updated.calls)
        case Returned(result) =>
          var design := Design(result.chatId, result.content, Some(result.files),
                               result.webUrl, result.previewUrl, result.demo, None, now);
          match UpdateSubdomainDesign(store, subdomain, Some(design))
          case Threw(_) => Handled(Response(500, ErrorReply(FailureMessage)), store, updated.calls)
          case Returned(written) =>
            Handled(Response(200, DesignReply(design)), written.store, updated.calls)
  }
}
