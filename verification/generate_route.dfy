/**
 `POST /api/design/generate` (app/api/design/generate/route.ts): creates a
 design for a tenant from a prompt, creating the tenant's record when there
 is none, and replaces any design the tenant had, deployment included.
 */
module GenerateRoute {
  import opened Js
  import opened Subdomains
  import opened V0Sdk
  import opened V0
  import opened Http

  /** The JSON request body `{ subdomain, prompt }`. */
  datatype GenerateRequest = GenerateRequest(subdomain: Option<string>, prompt: Option<string>)

  const MissingFields: string := "Subdomain and prompt are required"
  const FailurePrefix: string := "Failed to generate design: "
  const DefaultEmoji: string := "\U{1F3E0}"

  /** The design written for a generation result, stamped `now`; it has no deployment. */
  function NewDesign(result: GenerationResult, now: int): Design {
    Design(result.chatId, result.content, Some(result.files), result.webUrl, result.previewUrl, result.demo, None, now)
  }

  /** `POST(request)` */
  function Post(store: Store, request: GenerateRequest, now: int, api: Api): (h: Handled)
    // a missing or empty field is refused before anything else happens
    ensures h.response.status == 400 <==> !Truthy(request.subdomain) || !Truthy(request.prompt)
    ensures h.response.status == 400 ==> h == Handled(Response(400, ErrorReply(MissingFields)), store, [])
    ensures Truthy(request.subdomain) && Truthy(request.prompt) ==>
      var reply := api.chatsCreate(EnhancedPrompt(request.prompt.value));
      && h.calls == [ChatsCreate(EnhancedPrompt(request.prompt.value))]
      && (h.response.status == 200 <==> reply.Returned? && Truthy(reply.value.id))
      && (h.response.status != 200 ==> h.response.status == 500 && h.store == store)
      // a gateway failure reports the upstream message under both prefixes
      && (reply.Threw? ==>
            h.response.body == ErrorReply(FailurePrefix + (GeneratePrefix + MessageOf(reply.thrown))))
      // a reply without a chat id is reported as such, under both prefixes
      && (reply.Returned? && !Truthy(reply.value.id) ==>
            h.response.body == ErrorReply(FailurePrefix + (GeneratePrefix + NoChatIdMessage)))
      && (h.response.status == 200 ==>
            var key := KeyFor(request.subdomain.value);
            var prior := GetSubdomainData(store, request.subdomain.value);
            key in h.store &&
            var record := h.store[key];
            && OnlyKeyChanged(store, h.store, key)
            // the record is kept, or created with the default icon and the current time
            && (prior.Some? ==> record.emoji == prior.value.emoji && record.createdAt == prior.value.createdAt)
            && (prior.None? ==> record.emoji == DefaultEmoji && record.createdAt == now)
            // the design is replaced as a whole: the new chat, read off the reply, no deployment
            && record.design.Some?
            && record.design.value.chatId == reply.value.id.value
            && record.design.value.content == Or(reply.value.url, "")
            && record.design.value.files == Some(FilesOf(reply.value))
            && record.design.value.webUrl == reply.value.webUrl
            && record.design.value.previewUrl == reply.value.previewUrl
            && record.design.value.demo == reply.value.demo
            && record.design.value.lastUpdated == now
            && StageOf(Some(record)) == Designed
            // the response carries exactly the stored design
            && h.response.body == DesignReply(record.design.value))
  {
    if !Truthy(request.subdomain) || !Truthy(request.prompt) then
      Handled(Response(400, ErrorReply(MissingFields)), store, [])
    else
      var subdomain := request.subdomain.value;
      var generated := GenerateLandingPage(request.prompt.value, api);
      match generated.outcome
      case Threw(e) => Handled(Response(500, ErrorReply(FailurePrefix + MessageOf(e))), store, generated.calls)
      case Returned(result) =>
        var key := KeyFor(subdomain);
        var existing :=
          match GetSubdomainData(store, subdomain)
          case Some(data) => data
          case None => Record(DefaultEmoji, now, None);
        var design := NewDesign(result, now);
        Handled(Response(200, DesignReply(design)), store[key := existing.(design := Some(design))], generated.calls)
  }
}
