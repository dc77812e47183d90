/**
 * The submission handlers over an in-memory submission collection: intake
 * (look the campaign up, refuse unknown and inactive campaigns, store the
 * payload as received, then hand the stored submission to the dispatcher),
 * the per-campaign listing, and the CSV export.
 */
module SubmissionController {
  import opened Wrappers
  import opened Js
  import opened Http
  import opened CampaignModel
  import opened SubmissionModel
  import CampaignController
  import IntegrationService
  import Csv
  import Sorting

  /** `{ campaignId, data } = req.body`, with `req.ip` and the `user-agent` header. */
  datatype SubmissionRequest = SubmissionRequest(
    campaignId: Option<Id>,
    data: Option<Object>,
    ip: Option<string>,
    userAgent: Option<string>)

  const NotActiveMessage := "Campaign is not active"
  const NoSubmissionsMessage := "No submissions found"
  const CsvContentType := "text/csv"

  /** `campaign.integrations && campaign.integrations.length > 0`. */
  predicate HasIntegrations(c: Campaign)
  {
    |c.integrations| > 0
  }

  /** `FormSubmission.find({ campaignId })` before sorting. */
  function Matching(rows: seq<FormSubmission>, campaignId: Id): (r: seq<FormSubmission>)
    ensures forall s :: s in r <==> s in rows && s.campaignId == campaignId
  {
    if rows == [] then []
    else (if rows[0].campaignId == campaignId then [rows[0]] else []) + Matching(rows[1..], campaignId)
  }

  /** `.sort({ submittedAt: -1 })` of the matching submissions: exactly those, newest first. */
  function ForCampaign(rows: seq<FormSubmission>, campaignId: Id): (r: seq<FormSubmission>)
    ensures multiset(r) == multiset(Matching(rows, campaignId))
    ensures forall s :: s in r <==> s in rows && s.campaignId == campaignId
    ensures Sorting.NewestFirst(r, SubmittedAt)
  {
    var r := Sorting.SortNewestFirst(Matching(rows, campaignId), SubmittedAt);
    assert forall s :: s in r <==> s in multiset(Matching(rows, campaignId));
    r
  }

  /** The listing is a run of the `{ campaignId: 1, submittedAt: -1 }` index. */
  lemma ListingFollowsIndex(rows: seq<FormSubmission>, campaignId: Id)
    ensures var r := ForCampaign(rows, campaignId);
      forall i, j :: 0 <= i < j < |r| ==> IndexPrecedes(r[i], r[j])
  {
    var r := ForCampaign(rows, campaignId);
    forall i, j | 0 <= i < j < |r| ensures IndexPrecedes(r[i], r[j]) {
      assert r[i] in r && r[j] in r;
      assert SubmittedAt(r[i]) >= SubmittedAt(r[j]);
    }
  }

  function SubmissionIdsOf(rows: seq<FormSubmission>): set<Id>
  {
    set s | s in rows :: s.id
  }

  /** The response of a successful export: a CSV attachment named after the campaign. */
  datatype CsvFile = CsvFile(contentType: string, disposition: string, body: string)

  function Disposition(campaignId: Id): string
  {
    "attachment; filename=submissions-" + campaignId + ".csv"
  }

  class SubmissionStore {
    var rows: seq<FormSubmission>

    ghost predicate Valid()
      reads this
    {
      forall i, j :: 0 <= i < j < |rows| ==> rows[i].id != rows[j].id
    }

    function Ids(): set<Id>
      reads this
    {
      SubmissionIdsOf(rows)
    }

    constructor ()
      ensures Valid() && rows == []
    {
      rows := [];
    }

    /**
     * `createSubmission`. An unknown campaign is a 404 and an inactive one a 400
     * (the dates are never looked at); a body without `data` fails the save with
     * a 500. In those cases nothing is stored and nothing is dispatched.
     * Otherwise exactly one submission is stored, carrying the received
     * `campaignId` and `data` unchanged, the client's address and user agent
     * and the time `now`; it is returned with 201. Only then, and only when the
     * campaign has integrations, is the dispatcher started on the stored
     * submission (`dispatched` is its plan); its outcome never reaches the reply.
     * `newId` is the identity the store allocates; the new row is the only
     * one carrying it, so the store's identities stay unique.
     */
    method CreateSubmission(campaigns: CampaignController.CampaignTable, req: SubmissionRequest,
                            newId: Id, now: Time, cfg: IntegrationService.ProcessConfig)
      returns (reply: Reply<FormSubmission>, dispatched: Option<seq<IntegrationService.Step>>)
      requires Valid() && newId !in Ids()
      modifies this
      ensures Valid()
      ensures req.campaignId.None? || req.campaignId.value !in campaigns.Ids() ==>
        reply == Reply(NotFound, Message(CampaignNotFound)) && rows == old(rows) && dispatched.None?
      ensures req.campaignId.Some? && req.campaignId.value in campaigns.Ids() ==>
        var c := CampaignController.Find(campaigns.rows, req.campaignId.value).value;
        && (c.status != Active ==>
              reply == Reply(BadRequest, Message(NotActiveMessage)) && rows == old(rows) && dispatched.None?)
        && (c.status == Active && req.data.None? ==>
              reply == Reply(ServerError, Message(ServerErrorMessage)) && rows == old(rows) && dispatched.None?)
        && (c.status == Active && req.data.Some? ==>
              var s := FormSubmission(newId, req.campaignId.value, req.data.value, req.ip, req.userAgent, now);
              && rows == old(rows) + [s]
              && (forall i :: 0 <= i < |rows| && rows[i].id == newId ==> i == |rows| - 1)
              && reply == Reply(Created, Payload(s))
              && dispatched == (if HasIntegrations(c) then Some(IntegrationService.Plan(c, s, cfg)) else None))
    {
      if req.campaignId.None? {
        return Reply(NotFound, Message(CampaignNotFound)), None;
      }
      var campaign := CampaignController.Find(campaigns.rows, req.campaignId.value);
      if campaign.None? {
        return Reply(NotFound, Message(CampaignNotFound)), None;
      }
      if campaign.value.status != Active {
        return Reply(BadRequest, Message(NotActiveMessage)), None;
      }
      var submission := NewSubmission(newId, req.campaignId, req.data, req.ip, req.userAgent, now);
      if submission.None? {
        return Reply(ServerError, Message(ServerErrorMessage)), None;
      }
      forall i | 0 <= i < |rows| ensures rows[i].id != newId {
        assert rows[i] in rows;
      }
      rows := rows + [submission.value];
      dispatched := None;
      if HasIntegrations(campaign.value) {
        dispatched := Some(IntegrationService.Plan(campaign.value, submission.value, cfg));
      }
      reply := Reply(Created, Payload(submission.value));
    }

    /** `getSubmissionsByCampaign`: exactly the campaign's submissions, newest first. */
    method GetSubmissionsByCampaign(campaignId: Id) returns (reply: Reply<seq<FormSubmission>>)
      ensures reply.status == Ok && reply.body.Payload?
      ensures forall s :: s in reply.body.value <==> s in rows && s.campaignId == campaignId
      ensures multiset(reply.body.value) == multiset(Matching(rows, campaignId))
      ensures Sorting.NewestFirst(reply.body.value, SubmittedAt)
    {
      reply := Reply(Ok, Payload(ForCampaign(rows, campaignId)));
    }

    /**
     * `exportSubmissions`: 404 when the campaign has no submissions (whether or
     * not the campaign exists); otherwise the CSV of its submissions, newest first.
     */
    method ExportSubmissions(campaignId: Id) returns (reply: Reply<CsvFile>)
      ensures (forall s :: s in rows ==> s.campaignId != campaignId) ==>
        reply == Reply(NotFound, Message(NoSubmissionsMessage))
      ensures (exists s :: s in rows && s.campaignId == campaignId) ==>
        var list := ForCampaign(rows, campaignId);
        reply == Reply(Ok, Payload(CsvFile(CsvContentType, Disposition(campaignId),
                                           Csv.Document(Csv.HeaderUnion(list), list))))
    {
      var list := ForCampaign(rows, campaignId);
      if |list| == 0 {
        return Reply(NotFound, Message(NoSubmissionsMessage));
      }
      assert list[0] in list;
      var headers := Csv.CollectHeaders(list);
      var csv := Csv.Document(headers, list);
      reply := Reply(Ok, Payload(CsvFile(CsvContentType, Disposition(campaignId), csv)));
    }
  }
}
