/** What an Express handler answers: a status code and either a `{ message }` object or a document. */
module Http {

  datatype Body<T> = Message(text: string) | Payload(value: T)

  datatype Reply<T> = Reply(status: nat, body: Body<T>)

  const NotFound: nat := 404
  const BadRequest: nat := 400
  const Unauthorized: nat := 401
  const Forbidden: nat := 403
  const ServerError: nat := 500
  const Ok: nat := 200
  const Created: nat := 201

  const CampaignNotFound := "Campaign not found"
  const ServerErrorMessage := "Server error"
}
