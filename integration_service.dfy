/**
 * The integration dispatcher: which outbound requests one new submission causes.
 * Each enabled integration, in list order, goes to the sender its type names;
 * a sender resolves its credentials (the process-wide setting wins, the
 * integration's own config is the fallback), gives up silently when one is
 * missing, and otherwise makes exactly one POST whose URL, body and headers are
 * fixed here. The POSTs are returned as values; whether each is delivered is a
 * parameter of `Settle`.
 */
module IntegrationService {
  import opened Wrappers
  import opened Js
  import opened CampaignModel
  import opened SubmissionModel

  /** The process-wide credentials, read from the environment at start-up; each may be unset. */
  datatype ProcessConfig = ProcessConfig(
    goHighLevelApiKey: Option<string>,
    goHighLevelLocationId: Option<string>,
    rampwinApiKey: Option<string>,
    rampwinApiUrl: Option<string>)

  const GoHighLevelContactsUrl := "https://rest.gohighlevel.com/v1/contacts/"

  datatype Header = Header(name: string, value: string)

  /** The three JSON bodies the senders post. */
  datatype Payload =
    | Contact(email: Option<Value>, name: Option<Value>, phone: Option<Value>, locationId: Value, customFields: Object)
    | RampwinEntry(submission: Object, campaignId: Id)
    | WebhookEvent(campaignId: Id, data: Object, submittedAt: Time)

  /** One `axios.post(url, body, { headers })`. */
  datatype Request = Post(url: string, body: Payload, headers: seq<Header>)

  /** What the sender of one enabled integration does. */
  datatype Step =
    | Send(request: Request)  // one POST
    | NotConfigured           // a credential is missing: a warning and a normal return
    | Unsupported             // the `default` branch of the switch: `Promise.resolve()`
    | ConfigUnreadable        // `integration.config` is absent, so reading a key throws before any POST

  /** Reading `integration.config.key`: the value (possibly `undefined`), or a throw when there is no config. */
  datatype Read = Read(v: Option<Value>) | Throws

  function ConfigKey(integration: Integration, key: string): Read
  {
    match integration.config
    case None => Throws
    case Some(m) => Read(Lookup(m, key))
  }

  /** `processValue || integration.config.key`: the right operand is read only when the left one is falsy. */
  function Credential(process: Option<string>, integration: Integration, key: string): Read
  {
    if Truthy(FromOptString(process)) then Read(FromOptString(process)) else ConfigKey(integration, key)
  }

  const JsonContentType := Header("Content-Type", "application/json")

  function GoHighLevelStep(integration: Integration, s: FormSubmission, cfg: ProcessConfig): Step
  {
    var apiKey := Credential(cfg.goHighLevelApiKey, integration, "apiKey");
    var locationId := Credential(cfg.goHighLevelLocationId, integration, "locationId");
    if apiKey.Throws? || locationId.Throws? then ConfigUnreadable
    else if !Truthy(apiKey.v) || !Truthy(locationId.v) then NotConfigured
    else
      Send(Post(GoHighLevelContactsUrl,
                Contact(Get(s.data, "email"), Get(s.data, "name"), Get(s.data, "phone"), locationId.v.value, s.data),
                [Header("Authorization", "Bearer " + ToString(apiKey.v.value)), JsonContentType]))
  }

  function RampwinStep(integration: Integration, s: FormSubmission, cfg: ProcessConfig): Step
  {
    var apiKey := Credential(cfg.rampwinApiKey, integration, "apiKey");
    var apiUrl := Credential(cfg.rampwinApiUrl, integration, "apiUrl");
    if apiKey.Throws? || apiUrl.Throws? then ConfigUnreadable
    else if !Truthy(apiKey.v) || !Truthy(apiUrl.v) then NotConfigured
    else
      Send(Post(ToString(apiUrl.v.value),
                RampwinEntry(s.data, s.campaignId),
                [Header("X-API-Key", ToString(apiKey.v.value)), JsonContentType]))
  }

  /** The webhook URL has no process-wide fallback, and the POST carries no headers of its own. */
  function WebhookStep(integration: Integration, s: FormSubmission): Step
  {
    var url := ConfigKey(integration, "webhookUrl");
    if url.Throws? then ConfigUnreadable
    else if !Truthy(url.v) then NotConfigured
    else Send(Post(ToString(url.v.value), WebhookEvent(s.campaignId, s.data, s.submittedAt), []))
  }

  /** The `switch (integration.type)`. */
  function StepFor(integration: Integration, s: FormSubmission, cfg: ProcessConfig): Step
  {
    if integration.kind == "gohighlevel" then GoHighLevelStep(integration, s, cfg)
    else if integration.kind == "rampwin" then RampwinStep(integration, s, cfg)
    else if integration.kind == "webhook" then WebhookStep(integration, s)
    else Unsupported
  }

  /** `.filter((integration) => integration.enabled)`. */
  function Enabled(integrations: seq<Integration>): (r: seq<Integration>)
    ensures |r| <= |integrations|
    ensures forall x :: x in r <==> x in integrations && x.enabled
  {
    if integrations == [] then []
    else (if integrations[0].enabled then [integrations[0]] else []) + Enabled(integrations[1..])
  }

  /** The filter keeps the list order: it distributes over concatenation. */
  lemma {:induction false} EnabledKeepsOrder(xs: seq<Integration>, ys: seq<Integration>)
    ensures Enabled(xs + ys) == Enabled(xs) + Enabled(ys)
  {
    if xs != [] {
      assert (xs + ys)[1..] == xs[1..] + ys;
      EnabledKeepsOrder(xs[1..], ys);
    } else {
      assert xs + ys == ys;
    }
  }

  /** An integration saved without the `enabled` flag takes the default `true` and survives the filter. */
  lemma UnflaggedIntegrationIsEnabled(input: IntegrationInput)
    requires BuildIntegration(input).Some? && input.enabled.None?
    ensures Enabled([BuildIntegration(input).value]) == [BuildIntegration(input).value]
  {
    var i := BuildIntegration(input).value;
    assert [i][1..] == [];
  }

  /** `.map(...)` over the enabled integrations: one step each, in the same order. */
  function Steps(enabled: seq<Integration>, s: FormSubmission, cfg: ProcessConfig): (r: seq<Step>)
    ensures |r| == |enabled|
    ensures forall k :: 0 <= k < |enabled| ==> r[k] == StepFor(enabled[k], s, cfg)
  {
    if enabled == [] then [] else [StepFor(enabled[0], s, cfg)] + Steps(enabled[1..], s, cfg)
  }

  /**
   * `processSubmission(campaign, submission)`. A stored campaign always holds an
   * `integrations` array (empty by default), so the `!campaign.integrations`
   * guard never returns early and the plan is the map over the enabled ones.
   */
  function Plan(c: Campaign, s: FormSubmission, cfg: ProcessConfig): seq<Step>
  {
    Steps(Enabled(c.integrations), s, cfg)
  }

  /** The POSTs of a plan, in the order they are started. */
  function Requests(plan: seq<Step>): (r: seq<Request>)
    ensures |r| <= |plan|
    ensures forall q :: q in r <==> Send(q) in plan
  {
    if plan == [] then []
    else (if plan[0].Send? then [plan[0].request] else []) + Requests(plan[1..])
  }

  /** How each sender's promise settles. */
  datatype Settled = Fulfilled | Rejected

  /**
   * `Promise.allSettled(promises)`: one outcome per sender, each decided by that
   * sender alone; `delivered` says whether a POST succeeds. A sender that throws
   * (an unreadable config or a failed POST) rejects; every other one fulfils.
   * The combined promise itself always resolves.
   */
  function Settle(plan: seq<Step>, delivered: Request -> bool): (r: seq<Settled>)
    ensures |r| == |plan|
    ensures forall k :: 0 <= k < |plan| ==>
      (r[k] == Rejected <==> plan[k].ConfigUnreadable? || (plan[k].Send? && !delivered(plan[k].request)))
  {
    if plan == [] then []
    else
      var first := match plan[0]
        case Send(q) => if delivered(q) then Fulfilled else Rejected
        case ConfigUnreadable => Rejected
        case _ => Fulfilled;
      [first] + Settle(plan[1..], delivered)
  }

  // ---------------------------------------------------------------- properties

  /** A campaign with an empty `integrations` array, or with none enabled, makes no outbound request. */
  lemma NothingEnabledNothingSent(c: Campaign, s: FormSubmission, cfg: ProcessConfig)
    requires forall k :: 0 <= k < |c.integrations| ==> !c.integrations[k].enabled
    ensures Plan(c, s, cfg) == []
    ensures Requests(Plan(c, s, cfg)) == []
  {
    var en := Enabled(c.integrations);
    assert forall x :: x in en ==> x in c.integrations && x.enabled;
  }

  /** Only enabled integrations are considered; each gives one step and at most one request, in list order. */
  lemma PlanFollowsEnabledIntegrations(c: Campaign, s: FormSubmission, cfg: ProcessConfig)
    ensures var en := Enabled(c.integrations);
      && |Plan(c, s, cfg)| == |en|
      && (forall k :: 0 <= k < |en| ==> en[k].enabled && en[k] in c.integrations && Plan(c, s, cfg)[k] == StepFor(en[k], s, cfg))
      && |Requests(Plan(c, s, cfg))| <= |en|
  {
  }

  /** A campaign created without an `integrations` path holds the empty array and dispatches nothing. */
  lemma CreatedWithoutIntegrationsSendsNothing(input: CampaignInput, id: Id, now: Time, s: FormSubmission, cfg: ProcessConfig)
    requires NewCampaign(input, id, now).Some? && input.integrations.None?
    ensures NewCampaign(input, id, now).value.integrations == []
    ensures Plan(NewCampaign(input, id, now).value, s, cfg) == []
  {
  }

  /** The three known types have a sender; every other type, `custom` included, is a no-op. */
  lemma TypeSwitch(integration: Integration, s: FormSubmission, cfg: ProcessConfig)
    ensures StepFor(integration, s, cfg).Unsupported? <==> integration.kind !in {"gohighlevel", "rampwin", "webhook"}
    ensures integration.kind == "custom" ==> StepFor(integration, s, cfg) == Unsupported
  {
  }

  /** With a config present, `a || b` decides each credential: the process value when it is truthy, else the config's. */
  lemma {:induction false} CredentialPrecedence(process: Option<string>, integration: Integration, key: string)
    requires integration.config.Some?
    ensures Credential(process, integration, key) == Read(Or(FromOptString(process), Lookup(integration.config.value, key)))
    ensures Truthy(FromOptString(process)) ==> Credential(process, integration, key) == Read(Some(Str(process.value)))
  {
  }

  /**
   * GoHighLevel: with both credentials resolved, one POST to the contacts URL
   * with the contact fields lifted out of the data, the location, the whole data
   * as custom fields and a bearer Authorization header; with either missing,
   * nothing is sent and nothing fails.
   */
  lemma GoHighLevelRequest(integration: Integration, s: FormSubmission, cfg: ProcessConfig, delivered: Request -> bool)
    requires integration.kind == "gohighlevel" && integration.config.Some?
    ensures var key := Or(FromOptString(cfg.goHighLevelApiKey), Lookup(integration.config.value, "apiKey"));
      var location := Or(FromOptString(cfg.goHighLevelLocationId), Lookup(integration.config.value, "locationId"));
      && (Truthy(key) && Truthy(location) ==>
          StepFor(integration, s, cfg) ==
            Send(Post(GoHighLevelContactsUrl,
                      Contact(Get(s.data, "email"), Get(s.data, "name"), Get(s.data, "phone"), location.value, s.data),
                      [Header("Authorization", "Bearer " + ToString(key.value)), Header("Content-Type", "application/json")])))
      && (!Truthy(key) || !Truthy(location) ==>
          StepFor(integration, s, cfg) == NotConfigured && Settle([StepFor(integration, s, cfg)], delivered) == [Fulfilled])
  {
    CredentialPrecedence(cfg.goHighLevelApiKey, integration, "apiKey");
    CredentialPrecedence(cfg.goHighLevelLocationId, integration, "locationId");
  }

  /** Rampwin: the same precedence for key and URL; one POST of `{ submission, campaignId }` with an `X-API-Key` header. */
  lemma RampwinRequest(integration: Integration, s: FormSubmission, cfg: ProcessConfig)
    requires integration.kind == "rampwin" && integration.config.Some?
    ensures var key := Or(FromOptString(cfg.rampwinApiKey), Lookup(integration.config.value, "apiKey"));
      var url := Or(FromOptString(cfg.rampwinApiUrl), Lookup(integration.config.value, "apiUrl"));
      && (Truthy(key) && Truthy(url) ==>
          StepFor(integration, s, cfg) ==
            Send(Post(ToString(url.value), RampwinEntry(s.data, s.campaignId),
                      [Header("X-API-Key", ToString(key.value)), Header("Content-Type", "application/json")])))
      && (!Truthy(key) || !Truthy(url) ==> StepFor(integration, s, cfg) == NotConfigured)
  {
    CredentialPrecedence(cfg.rampwinApiKey, integration, "apiKey");
    CredentialPrecedence(cfg.rampwinApiUrl, integration, "apiUrl");
  }

  /** A process-wide key is used even when the integration has no config at all. */
  lemma ProcessKeysNeedNoConfig(integration: Integration, s: FormSubmission, cfg: ProcessConfig)
    requires integration.kind == "gohighlevel" && integration.config.None?
    requires Truthy(FromOptString(cfg.goHighLevelApiKey)) && Truthy(FromOptString(cfg.goHighLevelLocationId))
    ensures StepFor(integration, s, cfg).Send?
    ensures StepFor(integration, s, cfg).request.headers[0] == Header("Authorization", "Bearer " + cfg.goHighLevelApiKey.value)
  {
  }

  /** Webhook: the URL comes from the integration alone; the POST carries campaign, data and time and no headers. */
  lemma WebhookRequest(integration: Integration, s: FormSubmission, cfg1: ProcessConfig, cfg2: ProcessConfig)
    requires integration.kind == "webhook"
    ensures StepFor(integration, s, cfg1) == StepFor(integration, s, cfg2)
    ensures integration.config.Some? ==>
      var url := Lookup(integration.config.value, "webhookUrl");
      StepFor(integration, s, cfg1) ==
        if Truthy(url) then Send(Post(ToString(url.value), WebhookEvent(s.campaignId, s.data, s.submittedAt), []))
        else NotConfigured
  {
  }

  /** One sender's failure is never attributed to another: each outcome depends on its own step only. */
  lemma SendersAreIndependent(plan: seq<Step>, d1: Request -> bool, d2: Request -> bool, k: nat)
    requires k < |plan|
    requires plan[k].Send? ==> d1(plan[k].request) == d2(plan[k].request)
    ensures Settle(plan, d1)[k] == Settle(plan, d2)[k]
  {
  }

  /** A missing credential is a no-op, not a failure: only throws and failed POSTs reject. */
  lemma NoOpsFulfil(plan: seq<Step>, delivered: Request -> bool, k: nat)
    requires k < |plan| && (plan[k].NotConfigured? || plan[k].Unsupported?)
    ensures Settle(plan, delivered)[k] == Fulfilled
  {
  }

  /** The webhook example: one active campaign with one enabled webhook; one POST to its URL. */
  lemma WebhookExample(cfg: ProcessConfig)
    ensures
      var hook := Integration("i1", "webhook", "Hook", Some(map["webhookUrl" := Str("https://example.test/hook")]), true);
      var c := Campaign("C1", "T", "D", 0, 1, None, None, Active,
                        [FormField("f1", "email", "Email", "email", true, [], None)], [hook], 0, 0);
      var s := FormSubmission("S1", "C1", [("email", Str("a@b.com"))], None, None, 5);
      Requests(Plan(c, s, cfg)) ==
        [Post("https://example.test/hook", WebhookEvent("C1", [("email", Str("a@b.com"))], 5), [])]
  {
    var hook := Integration("i1", "webhook", "Hook", Some(map["webhookUrl" := Str("https://example.test/hook")]), true);
    assert Enabled([hook]) == [hook] by {
      assert [hook][1..] == [];
    }
  }
}
