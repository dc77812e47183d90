/**
 * The campaign handlers over an in-memory campaign collection. The collection
 * keeps documents in insertion order (the order a query without `sort` returns
 * them in); identities are unique.
 */
module CampaignController {
  import opened Wrappers
  import opened Http
  import opened CampaignModel
  import Sorting

  function IdsOf(rows: seq<Campaign>): set<Id>
  {
    set c | c in rows :: c.id
  }

  predicate DistinctIds(rows: seq<Campaign>)
  {
    forall i, j :: 0 <= i < j < |rows| ==> rows[i].id != rows[j].id
  }

  /** `Campaign.findById(id)`: the document with that identity, or `null`. */
  function Find(rows: seq<Campaign>, id: Id): (r: Option<Campaign>)
    ensures r.Some? <==> id in IdsOf(rows)
    ensures r.Some? ==> r.value in rows && r.value.id == id
  {
    if rows == [] then None
    else if rows[0].id == id then Some(rows[0])
    else
      assert IdsOf(rows) == {rows[0].id} + IdsOf(rows[1..]) by {
        assert rows == [rows[0]] + rows[1..];
      }
      Find(rows[1..], id)
  }

  /** With unique identities, the document at any position is the one `Find` returns for its identity. */
  lemma {:induction false} FindAt(rows: seq<Campaign>, k: nat)
    requires DistinctIds(rows) && k < |rows|
    ensures Find(rows, rows[k].id) == Some(rows[k])
  {
    if k > 0 {
      FindAt(rows[1..], k - 1);
    }
  }

  /** Writing the updated document back in place of the one with the same identity. */
  function ReplaceById(rows: seq<Campaign>, updated: Campaign): (r: seq<Campaign>)
    ensures |r| == |rows|
    ensures forall k :: 0 <= k < |rows| ==> r[k].id == rows[k].id
    ensures forall k :: 0 <= k < |rows| && rows[k].id != updated.id ==> r[k] == rows[k]
    ensures forall k :: 0 <= k < |rows| && rows[k].id == updated.id ==> r[k] == updated
  {
    if rows == [] then []
    else [if rows[0].id == updated.id then updated else rows[0]] + ReplaceById(rows[1..], updated)
  }

  /** An update changes the document with the given identity and no other. */
  lemma {:induction false} ReplaceKeepsOthers(rows: seq<Campaign>, updated: Campaign, other: Id)
    requires other != updated.id
    ensures Find(ReplaceById(rows, updated), other) == Find(rows, other)
  {
    if rows != [] {
      assert ReplaceById(rows, updated)[1..] == ReplaceById(rows[1..], updated);
      ReplaceKeepsOthers(rows[1..], updated, other);
    }
  }

  /** After an update, looking the identity up gives the new version. */
  lemma {:induction false} ReplaceFindsUpdated(rows: seq<Campaign>, updated: Campaign)
    requires updated.id in IdsOf(rows)
    ensures Find(ReplaceById(rows, updated), updated.id) == Some(updated)
  {
    if rows[0].id != updated.id {
      assert rows == [rows[0]] + rows[1..];
      assert updated.id in IdsOf(rows[1..]);
      assert ReplaceById(rows, updated)[1..] == ReplaceById(rows[1..], updated);
      ReplaceFindsUpdated(rows[1..], updated);
    }
  }

  /** An update keeps the set of identities, and so keeps them unique. */
  lemma ReplaceKeepsIds(rows: seq<Campaign>, updated: Campaign)
    ensures IdsOf(ReplaceById(rows, updated)) == IdsOf(rows)
    ensures DistinctIds(rows) ==> DistinctIds(ReplaceById(rows, updated))
  {
    var r := ReplaceById(rows, updated);
    forall x ensures x in IdsOf(r) <==> x in IdsOf(rows) {
      if x in IdsOf(r) {
        var k :| 0 <= k < |r| && r[k].id == x;
        assert rows[k] in rows;
      }
      if x in IdsOf(rows) {
        var k :| 0 <= k < |rows| && rows[k].id == x;
        assert r[k] in r;
      }
    }
  }

  /** Removing the document with the given identity, keeping the others in order. */
  function RemoveById(rows: seq<Campaign>, id: Id): (r: seq<Campaign>)
    ensures forall c :: c in r <==> c in rows && c.id != id
    ensures |r| <= |rows|
  {
    if rows == [] then []
    else (if rows[0].id == id then [] else [rows[0]]) + RemoveById(rows[1..], id)
  }

  /** Removing keeps the other documents in order, so unique identities stay unique. */
  lemma {:induction false} RemoveKeepsDistinct(rows: seq<Campaign>, id: Id)
    requires DistinctIds(rows)
    ensures DistinctIds(RemoveById(rows, id))
  {
    if rows != [] {
      RemoveKeepsDistinct(rows[1..], id);
      var rest := RemoveById(rows[1..], id);
      if rows[0].id != id {
        assert RemoveById(rows, id) == [rows[0]] + rest;
        forall j | 0 <= j < |rest| ensures rest[j].id != rows[0].id {
          assert rest[j] in rows[1..];
          var m :| 0 <= m < |rows[1..]| && rows[1..][m] == rest[j];
          assert rows[m + 1] == rest[j];
        }
      }
    }
  }

  /** Removing one identity does not change what any other identity finds. */
  lemma {:induction false} RemoveKeepsOthers(rows: seq<Campaign>, id: Id, other: Id)
    requires other != id
    ensures Find(RemoveById(rows, id), other) == Find(rows, other)
  {
    if rows != [] {
      RemoveKeepsOthers(rows[1..], id, other);
      var rest := RemoveById(rows[1..], id);
      if rows[0].id == id {
        assert RemoveById(rows, id) == rest;
      } else {
        assert RemoveById(rows, id) == [rows[0]] + rest;
        assert ([rows[0]] + rest)[1..] == rest;
      }
    }
  }

  /** A delete removes the document with the given identity and no other. */
  lemma RemoveOnlyThatId(rows: seq<Campaign>, id: Id, other: Id)
    requires DistinctIds(rows)
    ensures DistinctIds(RemoveById(rows, id))
    ensures Find(RemoveById(rows, id), id).None?
    ensures other != id ==> Find(RemoveById(rows, id), other) == Find(rows, other)
  {
    RemoveKeepsDistinct(rows, id);
    if other != id {
      RemoveKeepsOthers(rows, id, other);
    }
  }

  function CreatedAt(c: Campaign): Time
  {
    c.createdAt
  }

  const DeletedMessage := "Campaign deleted successfully"

  class CampaignTable {
    var rows: seq<Campaign>

    ghost predicate Valid()
      reads this
    {
      DistinctIds(rows)
    }

    function Ids(): set<Id>
      reads this
    {
      IdsOf(rows)
    }

    constructor ()
      ensures Valid() && rows == []
    {
      rows := [];
    }

    /** `getCampaigns`: every campaign, newest `createdAt` first. */
    method GetCampaigns() returns (reply: Reply<seq<Campaign>>)
      ensures reply.status == Ok && reply.body.Payload?
      ensures multiset(reply.body.value) == multiset(rows)
      ensures Sorting.NewestFirst(reply.body.value, CreatedAt)
    {
      reply := Reply(Ok, Payload(Sorting.SortNewestFirst(rows, CreatedAt)));
    }

    /** `getCampaignById`: the campaign, or 404 when no campaign has that identity. */
    method GetCampaignById(id: Id) returns (reply: Reply<Campaign>)
      ensures id !in Ids() ==> reply == Reply(NotFound, Message(CampaignNotFound))
      ensures id in Ids() ==> reply.status == Ok && reply.body.Payload? && reply.body.value in rows && reply.body.value.id == id
    {
      var found := Find(rows, id);
      if found.None? {
        return Reply(NotFound, Message(CampaignNotFound));
      }
      reply := Reply(Ok, Payload(found.value));
    }

    /**
     * `createCampaign`: the body becomes a new document with the schema's
     * defaults and is returned with 201; a body the schema rejects stores nothing.
     * `newId` is the identity the store allocates.
     */
    method CreateCampaign(input: CampaignInput, newId: Id, now: Time) returns (reply: Reply<Campaign>)
      requires Valid() && newId !in Ids()
      modifies this
      ensures Valid()
      ensures NewCampaign(input, newId, now).None? ==>
        reply == Reply(ServerError, Message(ServerErrorMessage)) && rows == old(rows)
      ensures NewCampaign(input, newId, now).Some? ==>
        var c := NewCampaign(input, newId, now).value;
        rows == old(rows) + [c] && reply == Reply(Created, Payload(c))
    {
      var created := NewCampaign(input, newId, now);
      if created.None? {
        return Reply(ServerError, Message(ServerErrorMessage));
      }
      assert newId !in IdsOf(rows);
      forall i | 0 <= i < |rows| ensures rows[i].id != newId {
        assert rows[i] in rows;
      }
      rows := rows + [created.value];
      reply := Reply(Created, Payload(created.value));
    }

    /**
     * `updateCampaign`: the update validators run first (a rejected body is a
     * 500); then an unknown identity is a 404 and changes nothing; otherwise the
     * document with that identity, and only it, is replaced and the new version
     * is returned.
     */
    method UpdateCampaign(id: Id, patch: CampaignInput, now: Time) returns (reply: Reply<Campaign>)
      requires Valid()
      modifies this
      ensures Valid()
      ensures !AdmissiblePatch(patch) ==>
        reply == Reply(ServerError, Message(ServerErrorMessage)) && rows == old(rows)
      ensures AdmissiblePatch(patch) && id !in old(Ids()) ==>
        reply == Reply(NotFound, Message(CampaignNotFound)) && rows == old(rows)
      ensures AdmissiblePatch(patch) && id in old(Ids()) ==>
        var updated := ApplyPatch(Find(old(rows), id).value, patch, now).value;
        && reply == Reply(Ok, Payload(updated))
        && Find(rows, id) == Some(updated)
        && (forall other :: other != id ==> Find(rows, other) == Find(old(rows), other))
        && Ids() == old(Ids())
    {
      if !AdmissiblePatch(patch) {
        return Reply(ServerError, Message(ServerErrorMessage));
      }
      var found := Find(rows, id);
      if found.None? {
        return Reply(NotFound, Message(CampaignNotFound));
      }
      var updated := ApplyPatch(found.value, patch, now).value;
      ghost var before := rows;
      rows := ReplaceById(rows, updated);
      forall other | other != id ensures Find(rows, other) == Find(before, other) {
        ReplaceKeepsOthers(before, updated, other);
      }
      ReplaceFindsUpdated(before, updated);
      ReplaceKeepsIds(before, updated);
      reply := Reply(Ok, Payload(updated));
    }

    /**
     * `deleteCampaign`: an unknown identity is a 404; otherwise that document,
     * and only it, is removed. Submissions live elsewhere and are not touched.
     */
    method DeleteCampaign(id: Id) returns (reply: Reply<()>)
      requires Valid()
      modifies this
      ensures Valid()
      ensures id !in old(Ids()) ==> reply == Reply(NotFound, Message(CampaignNotFound)) && rows == old(rows)
      ensures id in old(Ids()) ==>
        && reply == Reply(Ok, Message(DeletedMessage))
        && id !in Ids()
        && (forall other :: other != id ==> Find(rows, other) == Find(old(rows), other))
    {
      var found := Find(rows, id);
      if found.None? {
        return Reply(NotFound, Message(CampaignNotFound));
      }
      ghost var before := rows;
      rows := RemoveById(rows, id);
      forall other | other != id ensures Find(rows, other) == Find(before, other) {
        RemoveOnlyThatId(before, id, other);
      }
      RemoveOnlyThatId(before, id, id);
      reply := Reply(Ok, Message(DeletedMessage));
    }
  }
}
