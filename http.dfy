/**
 * What the Express handlers share: the authenticated user the middleware puts on
 * `req.user`, and the shape of the JSON replies they send.
 */
module Http {
  import opened Js

  /** `req.user`, as the authentication middleware sets it. */
  datatype User = User(tenantId: int, username: string)

  /** The JSON reply of a writing handler: the HTTP status, `message`, and the new row's id when one is returned. */
  datatype Reply = Reply(status: nat, message: string, id: Option<nat>)

  /** The JSON reply of a reading handler: 200 with the data, or an error status with `message`. */
  datatype Response<+T> = Ok(data: T) | Fail(status: nat, message: string)

  /** The message of every 500 reply. */
  const ServerError := "Something went wrong! Please try later!"
}
