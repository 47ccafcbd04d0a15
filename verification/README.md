# Tenant landing-page design lifecycle, modelled in Dafny

This project models the core of a multi-tenant Next.js host. Each tenant
subdomain owns one record in Redis. The record can hold a landing-page
*design* produced by the v0 chat service, and the design can hold a
*deployment* of that page. Three request handlers drive the record through
its lifecycle:

- **generate** creates a design from a prompt. It creates the tenant's record
  if there is none, and it replaces any earlier design, deployment included.
- **update** revises the design from feedback within the same chat. It
  replaces the design as a whole, so a deployment is dropped.
- **deploy** deploys the chat's latest version. It replaces the deployment
  inside the existing design, refreshes `lastUpdated`, and leaves the other
  design fields alone.

The stages of a tenant are NoDesign, Designed, Deploying, Live and
DeployFailed (the last three by the deployment's status: pending, completed,
failed).

Everything is a pure function over immutable values:

- Redis is a `map<string, Record>`. A handler returns the response, the map
  it leaves behind, and the trace of requests it sent to v0.
- The v0 SDK is a value of type `V0Sdk.Api`: one total function per endpoint,
  from request to reply or thrown error.
- `Date.now()` is a `now` parameter.
- JavaScript semantics are written out in module `Js`: `||` on strings, `trim`
  with the exact ECMAScript whitespace set, `length` in UTF-16 code units, and
  `replace` with a string pattern. Thrown values are `Error(message)` or a
  non-`Error` value, which reads as "Unknown error".

Modules: one per source file, `Subdomains` (lib/subdomains.ts), `V0`
(lib/v0.ts), `V0Deployments` (lib/v0-deployments.ts), and `GenerateRoute`,
`UpdateRoute` and `DeployRoute` (the three `POST` handlers); and four support
modules, `Js` (JavaScript semantics), `V0Sdk` (the SDK's reply shapes),
`Http` (the response shape) and `Lifecycle` (properties across handlers).

Behaviour of the code worth noting:

- A failed update answers with the fixed text "Failed to update design". The
  upstream message is not surfaced.
- Error texts are prefixed twice. A failed generation reads "Failed to
  generate design: Failed to generate landing page: …". A failed deployment
  reads "Failed to create deployment: Failed to create deployment: …".
- The icon check needs no emoji. Its fallback accepts any string of 1 to 10
  UTF-16 code units, so `isValidIcon(s)` holds exactly when that length is
  between 1 and 10.
- `lastUpdated` is only assigned from the clock. Nothing makes it increase.
- A new generation takes whatever chat id v0 returns. Nothing forces it to
  differ from the previous one.
- No handler writes a refreshed deployment status back into a record.
  `getDeploymentStatus` is modelled as a gateway function only.

## Model

| member | source | states |
|---|---|---|
| Js.RethrowRecoversMessage | lib/v0.ts:76 | A re-thrown failure is an `Error`, and removing the fixed prefix from its message gives back the caught value's message ("Unknown error" for a non-`Error`) |
| Js.RethrowDistinguishes | lib/v0.ts:76 | Two caught values are re-thrown as the same error exactly when their messages agree |
| Js.Trim | lib/v0.ts:22 | `trim` returns a contiguous slice of its input with only ECMAScript whitespace removed around it, which neither starts nor ends with whitespace |
| Js.TrimStartIndex | lib/v0.ts:93 | Everything before the returned index is whitespace, and the character at it is not |
| Js.TrimEndIndex | lib/v0.ts:93 | Everything from the returned index on is whitespace, and the character before it is not |
| Js.TrimIsUnique | lib/v0.ts:22 | Any string that meets the description of a trimmed input is the result of `Trim`, which makes that description a complete reference definition |
| Js.TrimIdempotent | lib/v0.ts:93 | Trimming an already trimmed string changes nothing |
| Js.Utf16Length | lib/subdomains.ts:4 | `length` counts UTF-16 code units: at least one and at most two per character |
| Js.IndexFrom | lib/subdomains.ts:92 | The position found is an occurrence of the pattern with none before it; no result means no occurrence |
| Js.RemoveFirst | lib/subdomains.ts:92 | `replace` with a string pattern leaves a string without an occurrence unchanged, and otherwise cuts out exactly the first occurrence, keeping what comes before and after it |
| Js.RemoveFirstOfPrefixed | lib/subdomains.ts:92 | Removing `subdomain:` from a key that starts with it gives the rest of the key |
| Subdomains.IsValidIcon | lib/subdomains.ts:3-27 | An icon is valid exactly when its UTF-16 length is between 1 and 10, whatever the emoji test says or whether it throws |
| Subdomains.IconExamples | lib/subdomains.ts:11-26 | "🔥" is accepted, the empty string and 11 letters are rejected, 5 letters are accepted |
| Subdomains.ToLower | lib/subdomains.ts:55 | Lowercasing keeps the length and maps each character on its own |
| Subdomains.StripNonKey | lib/subdomains.ts:55 | The filter keeps only `[a-z0-9-]` and never lengthens its input |
| Subdomains.Sanitise | lib/subdomains.ts:55 | A sanitised name contains only `[a-z0-9-]` and is no longer than the name given |
| Subdomains.StripNonKeyAppend | lib/subdomains.ts:55 | Filtering distributes over concatenation |
| Subdomains.StripNonKeyKeepsSanitised | lib/subdomains.ts:55 | The filter keeps a string of key characters unchanged |
| Subdomains.SanitiseKeepsSanitised | lib/subdomains.ts:55 | A name made only of `[a-z0-9-]` is its own sanitised form |
| Subdomains.SanitiseIdempotent | lib/subdomains.ts:66 | Sanitising twice is sanitising once |
| Subdomains.SameKeyIffSameSanitised | lib/subdomains.ts:55-57 | Two names reach the same Redis key exactly when they sanitise to the same string |
| Subdomains.KeyIgnoresCase | lib/subdomains.ts:55-57 | Names that differ only in letter case reach the same record |
| Subdomains.KeyIgnoresStripped | lib/subdomains.ts:55-57 | Inserting a character that sanitisation strips does not change the record reached |
| Subdomains.UpdateSubdomainDesign | lib/subdomains.ts:62-80 | Fails with "Subdomain not found" exactly when no record exists. Otherwise it writes under the key it read from, replaces `design` as a whole, keeps `emoji` and `createdAt`, and leaves every other key unchanged |
| Subdomains.ReadAfterUpdate | lib/subdomains.ts:66-78 | After a design write, every name with the same sanitised form reads the new record, and every other name reads what it read before |
| Subdomains.GetAllSubdomains | lib/subdomains.ts:91-100 | One entry per listed key, in key order. The name is the key with its first `subdomain:` removed. The icon falls back to '❓' when the record or its icon is missing or empty. `hasDesign` holds exactly when the stage is not NoDesign |
| Subdomains.ListedNameReadsBack | lib/subdomains.ts:92 | For a key written under a name, the listed subdomain is that name sanitised, and reading it finds the same record |
| V0.EnhancedPromptInjective | lib/v0.ts:22 | Two prompts give the same message exactly when they agree once trimmed |
| V0.ConvertFiles | lib/v0.ts:55-58 | One entry per upstream file, in order, with a missing or empty `name`/`content` read as `''` |
| V0.FilesOf | lib/v0.ts:105-108 | The files are the mapped upstream list, or empty when the reply has no latest version or no file list |
| V0.GenerateLandingPage | lib/v0.ts:17-78 | Sends exactly one `chats.create` with the enhanced prompt. Succeeds exactly when the reply has a non-empty id, which becomes `chatId`. Content is the url or `''`. Every failure, including a missing id, is re-thrown with the "Failed to generate landing page: " prefix |
| V0.UpdateLandingPage | lib/v0.ts:80-126 | Sends exactly one `chats.sendMessage` on the given chat with the trimmed feedback. Succeeds exactly when the reply does. Returns the given `chatId` unchanged. Failures carry the "Failed to update landing page: " prefix |
| V0Deployments.ResolveVersion | lib/v0-deployments.ts:21-32 | A supplied version is used as it is, with no request. Otherwise a single `chats.get` is sent, and the latest version id is used, or the call fails with "No version found for chat - cannot deploy" |
| V0Deployments.CreateV0Deployment | lib/v0-deployments.ts:12-68 | After resolving the version, sends one `deployments.create` whose `projectId` defaults to the chat id. A created deployment is `pending` with `deployedAt = now` and id/urls from upstream. Every failure carries the "Failed to create deployment: " prefix, and a failed resolution requests no deployment |
| V0Deployments.SuppliedVersionSkipsLookup | lib/v0-deployments.ts:36-40 | With a version supplied, the only request is the creation for that version |
| V0Deployments.MissingVersionCreatesNothing | lib/v0-deployments.ts:27-29 | A chat without a latest version yields the wrapped "No version found" error after a single lookup |
| V0Deployments.GetDeploymentStatus | lib/v0-deployments.ts:70-95 | Never throws. Gives nothing when the lookup fails, and otherwise the deployment read with a missing status taken as `pending` |
| V0Deployments.DeleteDeployment | lib/v0-deployments.ts:97-108 | Never throws, and answers true exactly when the upstream deletion succeeded |
| GenerateRoute.Post | app/api/design/generate/route.ts:6-87 | A missing or empty field gives 400 with no request and no write. A gateway failure gives 500 and leaves the store unchanged. A thrown reply is reported with its message and a reply without a chat id with "Failed to create chat with v0 API - no chat ID returned", both under the two prefixes. A success writes only the sanitised key: `emoji`/`createdAt` are kept (or '🏠'/`now` for a new record), the design is replaced by the reply's design without a deployment (stage Designed), and the response carries exactly the stored design |
| UpdateRoute.Post | app/api/design/update/route.ts:5-50 | A missing field gives 400, and no record, design or chat id gives 404, both with no request and no write. Otherwise it sends the trimmed feedback on the stored chat. A failure gives 500 "Failed to update design" with the store unchanged. A success keeps the chat id, `emoji` and `createdAt`, drops any deployment (stage Designed) and writes only that key |
| DeployRoute.Post | app/api/design/deploy/route.ts:5-73 | A missing subdomain gives 400, and no chat id gives 404, both with no request and no write. Otherwise it creates a deployment for the stored chat with no explicit version, so a `chats.get` comes first. A failure gives 500 with the store unchanged. A success keeps every other design field, sets the deployment and `lastUpdated` (stage Deploying), and answers with the stored deployment |
| Lifecycle.FrameOutsideKey | app/api/design/generate/route.ts:69 | A write confined to one tenant's key is invisible under every name with another sanitised form |
| Lifecycle.GenerateRespectsLifecycle | app/api/design/generate/route.ts:32-69 | A successful generation moves the tenant from any stage to Designed. Otherwise nothing changes, and other tenants are never touched |
| Lifecycle.UpdateRespectsLifecycle | app/api/design/update/route.ts:17-37 | A successful update moves a tenant that has a design to Designed. Otherwise nothing changes, and other tenants are never touched |
| Lifecycle.DeployRespectsLifecycle | app/api/design/deploy/route.ts:25-49 | A successful deployment moves a tenant that has a design to Deploying. Otherwise nothing changes, and other tenants are never touched |
| Lifecycle.NoRecordIsNotFound | app/api/design/update/route.ts:17-23 | For a tenant without a record, both update and deploy answer 404, send nothing to v0 and change nothing |
| Lifecycle.GenerateThenUpdateKeepsLineage | app/api/design/update/route.ts:26-37 | After a generation, an update under any name with the same sanitised form revises the generated chat, and the stored chat id stays the one generation returned |
| Lifecycle.GeneratePreservesChatIds | app/api/design/generate/route.ts:32-69 | Generation never stores a design with an empty chat id, since it stores only the non-empty id v0 returned (lib/v0.ts:48-53) |
| Lifecycle.UpdatePreservesChatIds | app/api/design/update/route.ts:26-37 | Update never stores a design with an empty chat id, since it keeps the id it found |
| Lifecycle.DeployPreservesChatIds | app/api/design/deploy/route.ts:41-49 | Deployment never stores a design with an empty chat id, since it keeps the design it found |
| Lifecycle.DesignedTenantReachesV0 | app/api/design/update/route.ts:17-26 | In a database where every design names its chat, update and deploy reach v0 exactly when the tenant has a design: from NoDesign both answer 404 with no request, and from every other stage update sends one `chats.sendMessage` and deploy starts with a `chats.get` |

## Left out

- Redis and v0 as services: network calls, their latency and their own
  failures are not modelled. The store is a map and every SDK reply is a
  function of the request. A Redis error, which would surface as a 500, is
  not modelled.
- HTTP and JSON: request parsing, a body that is not JSON, and fields that are
  not strings are not modelled. Request fields are optional strings.
  `NextResponse` construction is reduced to a status and a body.
- Logging (`console.log`, `console.error`, `console.warn`) is left out.
- Time: `Date.now()` is one `now` per request. The source reads the clock
  twice in generate (`createdAt`, `lastUpdated`) and twice in deploy
  (`deployedAt`, `lastUpdated`). The model uses one instant for both.
- The Unicode `Emoji` property is a parameter (`RegexSupport`), because the
  icon result does not depend on it.
- Concurrency: overlapping read-modify-write requests and their lost updates
  are not modelled. There is no locking in the source; the last writer wins.
- Extra record fields: fields other than `emoji`, `createdAt` and `design`,
  which the object spreads would carry along, are not modelled.
- The page renderer and its URL resolution policy (app/s/[subdomain]/page.tsx
  and app/s/[subdomain]/design/page.tsx), the v0 proxy route and the React
  design interface are not part of this model.
- Subdomains.ToLower: maps only ASCII `A`–`Z`. JavaScript's full Unicode case
  mapping would turn a few non-ASCII characters into ASCII letters (the Kelvin
  sign into `k`). The model strips them.
- Subdomains.Sanitise: inherits the ASCII-only case mapping of `ToLower`.
- Subdomains.GetAllSubdomains: the entry's `createdAt`, and its `Date.now()`
  default, are not modelled. The key listing from `redis.keys` is a
  parameter, because Redis does not fix its order.
