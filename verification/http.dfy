/**
 What a request handler produces, stripped of the HTTP framework: a status
 code with a JSON body, the database as the handler leaves it, and the
 requests it sent to the v0 service.
 */
module Http {
  import opened Subdomains
  import opened V0Sdk

  /** The JSON body: `{ success: true, data: design }`, `{ success: true, deployment }`
      or `{ error }`. */
  datatype Body = DesignReply(data: Design) | DeploymentReply(deployment: Deployment) | ErrorReply(error: string)

  datatype Response = Response(status: int, body: Body)

  datatype Handled = Handled(response: Response, store: Store, calls: seq<Call>)

  /** The database after `after` differs from `before` at most under `key`. */
  ghost predicate OnlyKeyChanged(before: Store, after: Store, key: string) {
    && after.Keys <= before.Keys + {key}
    && before.Keys <= after.Keys
    && forall k :: k in before && k != key ==> after[k] == before[k]
  }
}
