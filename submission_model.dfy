/**
 * A form submission document: the owning campaign, the payload stored as
 * received, the client's address and user agent, and the submission time,
 * with the compound index that serves the per-campaign listing.
 */
module SubmissionModel {
  import opened Wrappers
  import opened Js
  import opened CampaignModel

  datatype FormSubmission = FormSubmission(
    id: Id,
    campaignId: Id,
    data: Object,
    ipAddress: Option<string>,
    userAgent: Option<string>,
    submittedAt: Time)

  /**
   * `new FormSubmission({ campaignId, data, ipAddress, userAgent })` and a
   * successful save: `campaignId` and `data` are required, `submittedAt`
   * defaults to the creation time.
   */
  function NewSubmission(id: Id, campaignId: Option<Id>, data: Option<Object>,
                         ip: Option<string>, userAgent: Option<string>, now: Time): (r: Option<FormSubmission>)
    ensures r.Some? <==> campaignId.Some? && data.Some?
    ensures r.Some? ==>
      && r.value.id == id && r.value.campaignId == campaignId.value && r.value.data == data.value
      && r.value.ipAddress == ip && r.value.userAgent == userAgent && r.value.submittedAt == now
  {
    if campaignId.Some? && data.Some? then
      Some(FormSubmission(id, campaignId.value, data.value, ip, userAgent, now))
    else None
  }

  function SubmittedAt(s: FormSubmission): Time
  {
    s.submittedAt
  }

  /** Lexicographic order on identities, as the index compares them. */
  predicate IdLess(a: Id, b: Id)
  {
    if a == [] then b != []
    else if b == [] then false
    else a[0] < b[0] || (a[0] == b[0] && IdLess(a[1..], b[1..]))
  }

  /** The order of the index `{ campaignId: 1, submittedAt: -1 }`: `a` may precede `b`. */
  predicate IndexPrecedes(a: FormSubmission, b: FormSubmission)
  {
    IdLess(a.campaignId, b.campaignId) || (a.campaignId == b.campaignId && a.submittedAt >= b.submittedAt)
  }
}
