/**
 The generation gateway (lib/v0.ts): turns a prompt or a piece of feedback
 into a request to the v0 chat service, and the chat it answers with into a
 `V0GenerationResult`.
 */
module V0 {
  import opened Js
  import opened Subdomains
  import opened V0Sdk

  /** The fixed instruction placed before the user's prompt. */
  const PromptIntro: string := "Create a modern, responsive landing page for a subdomain tenant. "

  /** The fixed list of requirements placed after the user's prompt. */
  const PromptRequirements: string :=
    "\n    \n    Requirements:\n    - Use Next.js 15 with App Router\n    - Use Tailwind CSS for styling\n    - Make it fully responsive (mobile, tablet, desktop)\n    - Include a clean, professional design\n    - Add proper semantic HTML structure\n    - Include engaging visual elements\n    - Make it production-ready"

  const GeneratePrefix: string := "Failed to generate landing page: "
  const UpdatePrefix: string := "Failed to update landing page: "
  const NoChatIdMessage: string := "Failed to create chat with v0 API - no chat ID returned"

  /** `V0GenerationResult` */
  datatype GenerationResult = GenerationResult(
    chatId: string,
    content: string,
    files: seq<FileEntry>,
    webUrl: Option<string>,
    previewUrl: Option<string>,
    demo: Option<string>)

  /** The message sent to `chats.create`: the intro, the trimmed prompt, the requirements. */
  function EnhancedPrompt(prompt: string): string {
    PromptIntro + Trim(prompt) + PromptRequirements
  }

  /** Two prompts produce the same request exactly when they agree once trimmed:
      surrounding whitespace is all the gateway discards. */
  lemma EnhancedPromptInjective(a: string, b: string)
    ensures EnhancedPrompt(a) == EnhancedPrompt(b) <==> Trim(a) == Trim(b)
  {
    if EnhancedPrompt(a) == EnhancedPrompt(b) {
      var m := EnhancedPrompt(a);
      assert Trim(a) == m[|PromptIntro|..|m| - |PromptRequirements|] == Trim(b);
    }
  }

  /** The file mapping `file => ({ name: file.name || '', content: file.content || '' })`. */
  function ConvertFiles(files: seq<SdkFile>): (r: seq<FileEntry>)
    ensures |r| == |files|
    ensures forall i :: 0 <= i < |files| ==>
      r[i].name == Or(files[i].name, "") && r[i].content == Or(files[i].content, "")
  {
    if files == [] then []
    else [FileEntry(Or(files[0].name, ""), Or(files[0].content, ""))] + ConvertFiles(files[1..])
  }

  /** `response.latestVersion?.files?.map(...) || []`: one entry per upstream file, in
      order, and none when the reply carries no file list. */
  function FilesOf(chat: Chat): (r: seq<FileEntry>)
    ensures (chat.latestVersion.None? || chat.latestVersion.value.files.None?) ==> r == []
    ensures chat.latestVersion.Some? && chat.latestVersion.value.files.Some? ==>
      var files := chat.latestVersion.value.files.value;
      && |r| == |files|
      && forall i :: 0 <= i < |files| ==>
           r[i].name == Or(files[i].name, "") && r[i].content == Or(files[i].content, "")
  {
    if chat.latestVersion.Some? && chat.latestVersion.value.files.Some? then
      ConvertFiles(chat.latestVersion.value.files.value)
    else []
  }

  /** The result read off a chat reply for `chatId`: the url (or `''`) as content, the
      mapped files, and the three presentation urls as they came. */
  function FromChat(chatId: string, chat: Chat): GenerationResult {
    GenerationResult(chatId, Or(chat.url, ""), FilesOf(chat), chat.webUrl, chat.previewUrl, chat.demo)
  }

  /** `r` is what `chat` reads as, whatever chat id `r` carries. */
  ghost predicate ReadOff(r: GenerationResult, chat: Chat) {
    r == FromChat(r.chatId, chat)
  }

  /** `generateLandingPage(prompt)`: one `chats.create` call with the enhanced prompt; the
      result's `chatId` is the reply's id, and a reply without an id is a failure. Every
      failure is re-thrown with the "Failed to generate landing page: " prefix. */
  function GenerateLandingPage(prompt: string, api: Api): (t: Traced<GenerationResult>)
    ensures t.calls == [ChatsCreate(EnhancedPrompt(prompt))]
    ensures var reply := api.chatsCreate(EnhancedPrompt(prompt));
      && (t.outcome.Returned? <==> reply.Returned? && Truthy(reply.value.id))
      && (t.outcome.Returned? ==>
            t.outcome.value.chatId == reply.value.id.value && ReadOff(t.outcome.value, reply.value))
      && (reply.Threw? ==> t.outcome == Threw(Rethrow(GeneratePrefix, reply.thrown)))
      && (reply.Returned? && !Truthy(reply.value.id) ==>
            t.outcome == Threw(Rethrow(GeneratePrefix, Error(NoChatIdMessage))))
  {
    var message := EnhancedPrompt(prompt);
    var calls := [ChatsCreate(message)];
    match api.chatsCreate(message)
    case Threw(e) => Traced(Threw(Rethrow(GeneratePrefix, e)), calls)
    case Returned(chat) =>
      if !Truthy(chat.id) then Traced(Threw(Rethrow(GeneratePrefix, Error(NoChatIdMessage))), calls)
      else Traced(Returned(FromChat(chat.id.value, chat)), calls)
  }

  /** `updateLandingPage(chatId, feedback)`: one `chats.sendMessage` call on the given chat
      with the trimmed feedback; the result keeps the given `chatId` whatever the reply
      says. Every failure is re-thrown with the "Failed to update landing page: " prefix. */
  function UpdateLandingPage(chatId: string, feedback: string, api: Api): (t: Traced<GenerationResult>)
    ensures t.calls == [ChatsSendMessage(chatId, Trim(feedback))]
    ensures var reply := api.chatsSendMessage(chatId, Trim(feedback));
      && (t.outcome.Returned? <==> reply.Returned?)
      && (t.outcome.Returned? ==> t.outcome.value.chatId == chatId && ReadOff(t.outcome.value, reply.value))
      && (reply.Threw? ==> t.outcome == Threw(Rethrow(UpdatePrefix, reply.thrown)))
  {
    var message := Trim(feedback);
    var calls := [ChatsSendMessage(chatId, message)];
    match api.chatsSendMessage(chatId, message)
    case Threw(e) => Traced(Threw(Rethrow(UpdatePrefix, e)), calls)
    case Returned(chat) => Traced(Returned(FromChat(chatId, chat)), calls)
  }
}
