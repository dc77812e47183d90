/**
 * A campaign document: its form fields and outbound integrations, the schema's
 * enums, defaults and required paths, and how a request body becomes a stored
 * document (on create) or changes one (on update).
 */
module CampaignModel {
  import opened Wrappers
  import opened Js

  /** A document identity (an ObjectId in the store). */
  type Id = string

  /** A timestamp in milliseconds. */
  type Time = int

  /** The lifecycle status, set by the caller and never derived from the dates. */
  datatype Status = Draft | Active | Ended

  const DefaultStatus: Status := Draft

  function StatusName(s: Status): string
  {
    match s
    case Draft => "draft"
    case Active => "active"
    case Ended => "ended"
  }

  /** The `enum` validator on `status`: the status a request names, if it is one of the three. */
  function ParseStatus(name: string): (r: Option<Status>)
    ensures r.Some? <==> name in {"draft", "active", "ended"}
    ensures r.Some? ==> StatusName(r.value) == name
  {
    if name == "draft" then Some(Draft)
    else if name == "active" then Some(Active)
    else if name == "ended" then Some(Ended)
    else None
  }

  /** The six field types the form renderer knows; the schema itself stores any string. */
  const FieldTypes: set<string> := {"text", "email", "phone", "select", "checkbox", "textarea"}

  /** The four integration types declared; the schema itself stores any string. */
  const IntegrationTypes: set<string> := {"gohighlevel", "rampwin", "webhook", "custom"}

  datatype FormField = FormField(
    id: string,
    name: string,
    fieldLabel: string,
    fieldType: string,
    required: bool,
    options: seq<string>,
    validation: Option<string>)

  datatype Integration = Integration(
    id: string,
    kind: string,
    name: string,
    config: Option<map<string, Value>>,
    enabled: bool)

  datatype Campaign = Campaign(
    id: Id,
    title: string,
    description: string,
    startDate: Time,
    endDate: Time,
    bannerImage: Option<string>,
    videoUrl: Option<string>,
    status: Status,
    fields: seq<FormField>,
    integrations: seq<Integration>,
    createdAt: Time,
    updatedAt: Time)

  /** A form field as a request body carries it: every path may be absent. */
  datatype FieldInput = FieldInput(
    id: Option<string>,
    name: Option<string>,
    fieldLabel: Option<string>,
    fieldType: Option<string>,
    required: Option<bool>,
    options: Option<seq<string>>,
    validation: Option<string>)

  datatype IntegrationInput = IntegrationInput(
    id: Option<string>,
    kind: Option<string>,
    name: Option<string>,
    config: Option<map<string, Value>>,
    enabled: Option<bool>)

  /** A campaign request body (the whole document on create, the changed paths on update). */
  datatype CampaignInput = CampaignInput(
    title: Option<string>,
    description: Option<string>,
    startDate: Option<Time>,
    endDate: Option<Time>,
    bannerImage: Option<string>,
    videoUrl: Option<string>,
    status: Option<string>,
    fields: Option<seq<FieldInput>>,
    integrations: Option<seq<IntegrationInput>>)

  /** The `required` validator on a string path: present and not the empty string. */
  predicate RequiredString(s: Option<string>)
  {
    s.Some? && s.value != ""
  }

  /** The status an input leaves after the `enum` validator and the `draft` default. */
  function StatusOf(s: Option<string>): (r: Option<Status>)
    ensures s.None? ==> r == Some(DefaultStatus)
    ensures s.Some? ==> r == ParseStatus(s.value)
  {
    match s
    case None => Some(DefaultStatus)
    case Some(name) => ParseStatus(name)
  }

  /**
   * Casting one field sub-document: four required strings, `required` defaulting
   * to false, and `options`, an array path, defaulting to the empty array.
   */
  function BuildField(f: FieldInput): (r: Option<FormField>)
    ensures r.Some? <==>
      RequiredString(f.id) && RequiredString(f.name) && RequiredString(f.fieldLabel) && RequiredString(f.fieldType)
    ensures r.Some? ==>
      && r.value.id == f.id.value && r.value.name == f.name.value
      && r.value.fieldLabel == f.fieldLabel.value && r.value.fieldType == f.fieldType.value
      && r.value.required == (f.required == Some(true))
      && r.value.options == f.options.GetOr([]) && r.value.validation == f.validation
    ensures r.Some? && f.options.None? ==> r.value.options == []
  {
    if RequiredString(f.id) && RequiredString(f.name) && RequiredString(f.fieldLabel) && RequiredString(f.fieldType) then
      Some(FormField(f.id.value, f.name.value, f.fieldLabel.value, f.fieldType.value,
                     f.required.GetOr(false), f.options.GetOr([]), f.validation))
    else None
  }

  /** Casting one integration sub-document: three required strings, `enabled` defaulting to true. */
  function BuildIntegration(i: IntegrationInput): (r: Option<Integration>)
    ensures r.Some? <==> RequiredString(i.id) && RequiredString(i.kind) && RequiredString(i.name)
    ensures r.Some? ==>
      && r.value.id == i.id.value && r.value.kind == i.kind.value && r.value.name == i.name.value
      && r.value.config == i.config
      && r.value.enabled == (i.enabled != Some(false))
  {
    if RequiredString(i.id) && RequiredString(i.kind) && RequiredString(i.name) then
      Some(Integration(i.id.value, i.kind.value, i.name.value, i.config, i.enabled.GetOr(true)))
    else None
  }

  /** An array of sub-documents is cast element by element, in order; one bad element fails the whole save. */
  function BuildFields(fs: seq<FieldInput>): (r: Option<seq<FormField>>)
    ensures r.Some? <==> forall k :: 0 <= k < |fs| ==> BuildField(fs[k]).Some?
    ensures r.Some? ==> |r.value| == |fs| && forall k :: 0 <= k < |fs| ==> Some(r.value[k]) == BuildField(fs[k])
  {
    if fs == [] then Some([])
    else
      match (BuildField(fs[0]), BuildFields(fs[1..]))
      case (Some(f), Some(rest)) => Some([f] + rest)
      case _ => None
  }

  function BuildIntegrations(ins: seq<IntegrationInput>): (r: Option<seq<Integration>>)
    ensures r.Some? <==> forall k :: 0 <= k < |ins| ==> BuildIntegration(ins[k]).Some?
    ensures r.Some? ==> |r.value| == |ins| && forall k :: 0 <= k < |ins| ==> Some(r.value[k]) == BuildIntegration(ins[k])
  {
    if ins == [] then Some([])
    else
      match (BuildIntegration(ins[0]), BuildIntegrations(ins[1..]))
      case (Some(i), Some(rest)) => Some([i] + rest)
      case _ => None
  }

  /** What the schema admits on create: the required paths, every sub-document, and the status enum. */
  predicate Admissible(input: CampaignInput)
  {
    && RequiredString(input.title) && RequiredString(input.description)
    && input.startDate.Some? && input.endDate.Some?
    && StatusOf(input.status).Some?
    && BuildFields(input.fields.GetOr([])).Some?
    && BuildIntegrations(input.integrations.GetOr([])).Some?
  }

  /**
   * `new Campaign(req.body)` followed by a successful `save()`, or `None` when
   * validation rejects the body. Both timestamps are set to `now`. The two
   * array paths, `fields` and `integrations`, default to the empty array.
   */
  function NewCampaign(input: CampaignInput, id: Id, now: Time): (r: Option<Campaign>)
    ensures r.Some? <==> Admissible(input)
    ensures r.Some? ==>
      && r.value.id == id
      && Some(r.value.title) == input.title && Some(r.value.description) == input.description
      && Some(r.value.startDate) == input.startDate && Some(r.value.endDate) == input.endDate
      && r.value.bannerImage == input.bannerImage && r.value.videoUrl == input.videoUrl
      && Some(r.value.status) == StatusOf(input.status)
      && (input.status.None? ==> r.value.status == Draft)
      && Some(r.value.fields) == BuildFields(input.fields.GetOr([]))
      && Some(r.value.integrations) == BuildIntegrations(input.integrations.GetOr([]))
      && (input.fields.None? ==> r.value.fields == [])
      && (input.integrations.None? ==> r.value.integrations == [])
      && r.value.createdAt == now && r.value.updatedAt == now
  {
    if !Admissible(input) then None
    else
      Some(Campaign(id, input.title.value, input.description.value,
                    input.startDate.value, input.endDate.value,
                    input.bannerImage, input.videoUrl,
                    StatusOf(input.status).value,
                    BuildFields(input.fields.GetOr([])).value,
                    BuildIntegrations(input.integrations.GetOr([])).value,
                    now, now))
  }

  /** What the update validators admit: each path present in the body is checked like on create. */
  predicate AdmissiblePatch(patch: CampaignInput)
  {
    && (patch.title.Some? ==> RequiredString(patch.title))
    && (patch.description.Some? ==> RequiredString(patch.description))
    && (patch.status.Some? ==> StatusOf(patch.status).Some?)
    && (patch.fields.Some? ==> BuildFields(patch.fields.value).Some?)
    && (patch.integrations.Some? ==> BuildIntegrations(patch.integrations.value).Some?)
  }

  function Override<T>(old_: T, new_: Option<T>): (r: T)
    ensures new_.Some? ==> r == new_.value
    ensures new_.None? ==> r == old_
  {
    match new_ case Some(v) => v case None => old_
  }

  /**
   * `findByIdAndUpdate(id, body, { new: true, runValidators: true })` on one
   * document: every path the body carries replaces the stored one, the others
   * and the identity and `createdAt` are kept, `updatedAt` becomes `now`.
   */
  function ApplyPatch(c: Campaign, patch: CampaignInput, now: Time): (r: Option<Campaign>)
    ensures r.Some? <==> AdmissiblePatch(patch)
    ensures r.Some? ==>
      && r.value.id == c.id && r.value.createdAt == c.createdAt && r.value.updatedAt == now
      && r.value.title == Override(c.title, patch.title)
      && r.value.description == Override(c.description, patch.description)
      && r.value.startDate == Override(c.startDate, patch.startDate)
      && r.value.endDate == Override(c.endDate, patch.endDate)
      && (patch.bannerImage.Some? ==> r.value.bannerImage == patch.bannerImage)
      && (patch.bannerImage.None? ==> r.value.bannerImage == c.bannerImage)
      && (patch.videoUrl.Some? ==> r.value.videoUrl == patch.videoUrl)
      && (patch.videoUrl.None? ==> r.value.videoUrl == c.videoUrl)
      && (patch.status.None? ==> r.value.status == c.status)
      && (patch.status.Some? ==> Some(r.value.status) == ParseStatus(patch.status.value))
      && (patch.fields.None? ==> r.value.fields == c.fields)
      && (patch.fields.Some? ==> Some(r.value.fields) == BuildFields(patch.fields.value))
      && (patch.integrations.None? ==> r.value.integrations == c.integrations)
      && (patch.integrations.Some? ==> Some(r.value.integrations) == BuildIntegrations(patch.integrations.value))
  {
    if !AdmissiblePatch(patch) then None
    else
      Some(c.(
        title := Override(c.title, patch.title),
        description := Override(c.description, patch.description),
        startDate := Override(c.startDate, patch.startDate),
        endDate := Override(c.endDate, patch.endDate),
        bannerImage := if patch.bannerImage.Some? then patch.bannerImage else c.bannerImage,
        videoUrl := if patch.videoUrl.Some? then patch.videoUrl else c.videoUrl,
        status := if patch.status.Some? then StatusOf(patch.status).value else c.status,
        fields := if patch.fields.Some? then BuildFields(patch.fields.value).value else c.fields,
        integrations := if patch.integrations.Some? then BuildIntegrations(patch.integrations.value).value else c.integrations,
        updatedAt := now))
  }

  /**
   * The six field types are declared by the interface only: the schema stores
   * the type as a plain string, so a field of any non-empty type is admitted.
   */
  lemma FieldTypeNotEnforced(f: FieldInput, t: string)
    requires BuildField(f).Some? && t != "" && t !in FieldTypes
    ensures BuildField(f.(fieldType := Some(t))).Some?
    ensures BuildField(f.(fieldType := Some(t))).value.fieldType == t
    ensures BuildField(f.(fieldType := Some(t))).value.required == BuildField(f).value.required
  {
  }

  /** Nothing relates the two dates to each other or to the status: any dates are admitted. */
  lemma DatesUnconstrained(input: CampaignInput, start: Time, end: Time)
    requires Admissible(input)
    ensures Admissible(input.(startDate := Some(start), endDate := Some(end)))
    ensures Admissible(input.(startDate := Some(start), endDate := Some(end), status := Some("active")))
  {
  }
}
