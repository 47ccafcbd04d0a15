/**
 The parts of the v0 SDK the gateways call, as values: the shapes of its
 replies, the requests it receives, and the remote service itself as a
 total function from request to reply (or thrown error). A gateway returns,
 beside its result, the trace of requests it sent, in order.
 */
module V0Sdk {
  import opened Js
  import opened Subdomains

  /** A file of a chat version; both fields may be missing. */
  datatype SdkFile = SdkFile(name: Option<string>, content: Option<string>)

  datatype ChatVersion = ChatVersion(id: Option<string>, files: Option<seq<SdkFile>>)

  /** The chat object returned by `chats.create`, `chats.sendMessage` and `chats.get`.
      `webUrl`, `previewUrl` and `demo` are read off the reply untyped. */
  datatype Chat = Chat(
    id: Option<string>,
    url: Option<string>,
    latestVersion: Option<ChatVersion>,
    webUrl: Option<string>,
    previewUrl: Option<string>,
    demo: Option<string>)

  /** The deployment object returned by `deployments.create` and `deployments.get`. */
  datatype SdkDeployment = SdkDeployment(
    id: string,
    webUrl: string,
    apiUrl: Option<string>,
    inspectorUrl: Option<string>,
    status: Option<DeployStatus>)

  /** A request sent to the v0 service. */
  datatype Call =
    | ChatsCreate(message: string)
    | ChatsSendMessage(chatId: string, message: string)
    | ChatsGet(chatId: string)
    | DeploymentsCreate(projectId: string, chatId: string, versionId: string)
    | DeploymentsGet(deploymentId: string)
    | DeploymentsDelete(deploymentId: string)

  /** The v0 service: what each endpoint answers to each request. */
  datatype Api = Api(
    chatsCreate: string -> Attempt<Chat>,
    chatsSendMessage: (string, string) -> Attempt<Chat>,
    chatsGet: string -> Attempt<Chat>,
    deploymentsCreate: (string, string, string) -> Attempt<SdkDeployment>,
    deploymentsGet: string -> Attempt<SdkDeployment>,
    deploymentsDelete: string -> Attempt<()>)

  /** A gateway's outcome together with the requests it sent. */
  datatype Traced<+T> = Traced(outcome: Attempt<T>, calls: seq<Call>)
}
