# Promotions platform: a verified model of submission intake, dispatch and access control

This project models the server and client logic of a promotions (sweepstakes) web
application in Dafny. Marketers define campaigns, each with a dynamic entry form and optional outbound
integrations. Visitors submit entries, which are stored and then forwarded to
third-party CRMs and webhooks. The model covers these parts:

- **Campaign and submission documents** (`CampaignModel`, `SubmissionModel`): the schema's
  required paths, enums and defaults, and how a request body becomes a stored document or
  changes one.
- **Campaign handlers** (`CampaignController.CampaignTable`): list, get, create, update
  and delete over an in-memory campaign collection. The collection is a class with a
  sequence field.
- **Submission handlers** (`SubmissionController.SubmissionStore`): intake, the per-campaign
  listing and the CSV export over an in-memory submission collection.
- **CSV format** (`Csv`): the header row is the union of data keys in first-seen order. Each
  cell is quoted and escaped as in rules 5 to 7 of section 2 of RFC 4180. Lines end in a bare
  line feed and header names are not quoted. Every row is proved to read back, under
  RFC 4180 quoting, as one field per header.
- **Integration dispatcher** (`IntegrationService`): a pure function from a campaign, a
  submission and the process-wide credentials to the list of sender steps. A step is a POST
  with its exact URL, body and headers, or one of the no-op and failure cases. Each sender's
  outcome is decided independently.
- **Bearer-token middleware** (`Auth`): the `Bearer ` prefix check of section 2.1 of
  RFC 6750, the token after the 7-character prefix, the claims stored on the request, and
  role membership.
- **Route tables** (`Routes`): the campaign and submission routers as data. Every access
  rule is proved from them: only an admin deletes, and a missing token gives 401, never 403.
- **API client** (`ApiClient`): the request interceptor and `logout`, with their storage
  and headers as classes. Also the request builders, proved to reach the handlers the
  route tables name. The interceptor's header and the middleware's extraction form a
  round trip.
- **Entry page** (`CampaignPage`): the loop that builds one validation rule per form field,
  the phone pattern, the per-field checks and the submit guard.

Parameters stand in for the library calls. Token verification is `verify`, zod's email
test is `isEmail`, and the current time is `now`. The identity a store allocates is
`newId`. Whether a POST is delivered is `delivered`. The process-wide credentials are a
`ProcessConfig` value.

The process-wide GoHighLevel and Rampwin credentials take precedence over the
per-integration ones (`backend/src/services/integrationService.ts:30-32`, `67-68`). The
schema stores a field's or an integration's `type` as a plain string
(`backend/src/models/Campaign.ts:39`, `47`), so the switch's default branch is reachable
for any string. Array paths (`fields`, `integrations`, a field's `options`) are stored as
the empty array when a body leaves them out, so a stored campaign always has an
`integrations` array.

## Model

| member | source | states |
|---|---|---|
| `CampaignModel.ParseStatus` | backend/src/models/Campaign.ts:61 | the enum admits exactly `draft`, `active` and `ended`, and maps each name to the status that prints as it |
| `CampaignModel.StatusOf` | backend/src/models/Campaign.ts:28 | an absent status becomes `draft`; a given one must pass the enum |
| `CampaignModel.BuildField` | backend/src/models/Campaign.ts:35-43 | a field is admitted iff id, name, label and type are non-empty strings; `required` defaults to false; `options` defaults to the empty array; given options and validation are kept |
| `CampaignModel.BuildIntegration` | backend/src/models/Campaign.ts:45-51 | an integration is admitted iff id, type and name are non-empty; `enabled` is true unless the body says false; config is kept |
| `CampaignModel.BuildFields` | backend/src/models/Campaign.ts:62 | an array of fields is admitted iff every element is, and keeps their order and number |
| `CampaignModel.BuildIntegrations` | backend/src/models/Campaign.ts:63 | an array of integrations is admitted iff every element is, and keeps their order and number |
| `CampaignModel.NewCampaign` | backend/src/models/Campaign.ts:53-66 | a body is saved iff it is admissible; the document carries every given path, status defaulting to `draft`, `fields` and `integrations` defaulting to the empty array, and both timestamps `now` |
| `CampaignModel.ApplyPatch` | backend/src/controllers/campaignController.ts:42-46 | an update body is applied iff its present paths validate; present paths replace, absent ones, the identity and `createdAt` are kept, `updatedAt` becomes `now` |
| `CampaignModel.FieldTypeNotEnforced` | backend/src/models/Campaign.ts:39 | a field with a type outside the six declared ones is still admitted |
| `CampaignModel.DatesUnconstrained` | backend/src/models/Campaign.ts:55-61 | any start and end dates are admitted, with any status: nothing relates them |
| `SubmissionModel.NewSubmission` | backend/src/models/FormSubmission.ts:11-18 | a submission is created iff `campaignId` and `data` are given; it keeps them, the address and the user agent unchanged, with `submittedAt` = `now` |
| `CampaignController.Find` | backend/src/controllers/campaignController.ts:16 | a lookup finds a document iff one has the identity, and the document found has it |
| `CampaignController.FindAt` | backend/src/controllers/campaignController.ts:16 | with unique identities, every stored document is the one its identity finds |
| `CampaignController.ReplaceKeepsOthers` | backend/src/controllers/campaignController.ts:42 | writing back an updated document leaves every other identity's document as it was |
| `CampaignController.ReplaceFindsUpdated` | backend/src/controllers/campaignController.ts:42-52 | after the write-back the identity finds the new version (`new: true`) |
| `CampaignController.RemoveOnlyThatId` | backend/src/controllers/campaignController.ts:61 | a delete removes that identity, keeps identities unique and leaves every other document |
| `CampaignController.RemoveKeepsOthers` | backend/src/controllers/campaignController.ts:61 | removing one identity leaves what every other identity finds unchanged |
| `CampaignController.ReplaceKeepsIds` | backend/src/controllers/campaignController.ts:42 | an update neither adds nor removes identities, and keeps them unique |
| `CampaignController.CampaignTable.GetCampaigns` | backend/src/controllers/campaignController.ts:4-12 | the listing is a permutation of all campaigns, newest `createdAt` first |
| `CampaignController.CampaignTable.GetCampaignById` | backend/src/controllers/campaignController.ts:14-27 | an unknown identity is 404 "Campaign not found"; otherwise the stored document with that identity |
| `CampaignController.CampaignTable.CreateCampaign` | backend/src/controllers/campaignController.ts:29-38 | an admissible body is appended as one new document and returned with 201; otherwise 500 and nothing stored |
| `CampaignController.CampaignTable.UpdateCampaign` | backend/src/controllers/campaignController.ts:40-57 | a rejected body is 500 and an unknown identity 404, both changing nothing; otherwise only that document changes, to the patched version, which is returned |
| `CampaignController.CampaignTable.DeleteCampaign` | backend/src/controllers/campaignController.ts:59-72 | an unknown identity is 404 and changes nothing; otherwise exactly that document is gone and the success message is returned; submissions are outside its frame |
| `SubmissionController.Matching` | backend/src/controllers/submissionController.ts:46-48 | the query keeps exactly the submissions whose `campaignId` matches |
| `SubmissionController.ForCampaign` | backend/src/controllers/submissionController.ts:46-48 | the listing is a permutation of the matching submissions, newest `submittedAt` first |
| `SubmissionController.ListingFollowsIndex` | backend/src/models/FormSubmission.ts:22 | the listing is ordered by the compound index (`campaignId` ascending, `submittedAt` descending) |
| `SubmissionController.SubmissionStore.CreateSubmission` | backend/src/controllers/submissionController.ts:6-42 | unknown campaign: 404; inactive campaign: 400, dates never consulted; missing data: 500. In all three nothing is stored and nothing dispatched. Otherwise exactly one submission with the received id and data, address, user agent and `now` is stored (the only row with the new identity) and returned with 201, and the dispatcher runs on it iff the campaign has integrations |
| `SubmissionController.SubmissionStore.GetSubmissionsByCampaign` | backend/src/controllers/submissionController.ts:44-55 | 200 with exactly the campaign's submissions, newest first |
| `SubmissionController.SubmissionStore.ExportSubmissions` | backend/src/controllers/submissionController.ts:57-94 | no submissions: 404 "No submissions found"; otherwise a `text/csv` attachment whose body is the CSV of the newest-first list under the header union |
| `Csv.CollectHeaders` | backend/src/controllers/submissionController.ts:68-71 | the nested loops adding keys to a set compute the header union |
| `Csv.DedupFirstSeen` | backend/src/controllers/submissionController.ts:68-73 | set insertion keeps each key once, exactly the keys seen, ordered by first occurrence |
| `Csv.HeaderUnionSpec` | backend/src/controllers/submissionController.ts:68-73 | the header row lists every data key of every submission once, in first-seen order |
| `Csv.KeysAreHeaders` | backend/src/controllers/submissionController.ts:69-71 | every key of every exported submission is a header |
| `Csv.HeaderLineSplits` | backend/src/controllers/submissionController.ts:73 | the unquoted header row splits back into the headers when no name holds a comma |
| `Csv.HeaderWithCommaAddsColumn` | backend/src/controllers/submissionController.ts:73 | a key holding a comma makes the unquoted header row read as one column more than there are headers |
| `Csv.Display` | backend/src/controllers/submissionController.ts:76-77 | a missing or falsy value is the empty string; any other value is `String(value)` |
| `Csv.CellTexts` | backend/src/controllers/submissionController.ts:75-78 | one cell text per header, the displayed value of that key |
| `Csv.Rows` | backend/src/controllers/submissionController.ts:74-80 | one row per submission, in list order |
| `Csv.ParseEscaped` | backend/src/controllers/submissionController.ts:77 | doubling quotes and closing the quote reads back as the original text (RFC 4180 rule 7) |
| `Csv.RowRoundTrip` | backend/src/controllers/submissionController.ts:74-80 | every row reads back as exactly one field per header, each the displayed value |
| `Csv.DocumentLines` | backend/src/controllers/submissionController.ts:82 | without line feeds in the data, the export is the header line and then one line per submission, each reading back as its cells |
| `IntegrationService.Enabled` | backend/src/services/integrationService.ts:10-11 | exactly the enabled integrations survive the filter |
| `IntegrationService.EnabledKeepsOrder` | backend/src/services/integrationService.ts:10-11 | the filter keeps list order |
| `IntegrationService.UnflaggedIntegrationIsEnabled` | backend/src/models/Campaign.ts:50 | an integration saved without `enabled` is dispatched |
| `IntegrationService.Steps` | backend/src/services/integrationService.ts:12-23 | one step per enabled integration, in order, each from the type switch |
| `IntegrationService.Requests` | backend/src/services/integrationService.ts:12-23 | the POSTs of a plan are exactly its send steps, at most one per step |
| `IntegrationService.NothingEnabledNothingSent` | backend/src/services/integrationService.ts:8-11 | an empty `integrations` array, or none enabled, means no outbound request |
| `IntegrationService.CreatedWithoutIntegrationsSendsNothing` | backend/src/models/Campaign.ts:63 | a campaign created without `integrations` stores the empty array and its plan sends nothing |
| `IntegrationService.PlanFollowsEnabledIntegrations` | backend/src/services/integrationService.ts:10-23 | only enabled integrations are considered, each once and in order, and each makes at most one request |
| `IntegrationService.TypeSwitch` | backend/src/services/integrationService.ts:13-22 | `gohighlevel`, `rampwin` and `webhook` have senders; every other type, `custom` included, is a no-op |
| `IntegrationService.CredentialPrecedence` | backend/src/services/integrationService.ts:30-32 | each credential is the process value when truthy, else the integration config's |
| `IntegrationService.GoHighLevelRequest` | backend/src/services/integrationService.ts:28-63 | with key and location resolved: one POST to the contacts URL with email, name, phone, location, the whole data as custom fields and a bearer header; otherwise a no-op that fulfils |
| `IntegrationService.ProcessKeysNeedNoConfig` | backend/src/services/integrationService.ts:30-32 | truthy process credentials are used even when the integration has no config |
| `IntegrationService.RampwinRequest` | backend/src/services/integrationService.ts:65-94 | with key and URL resolved: one POST to the URL of `{submission, campaignId}` with an `X-API-Key` header; otherwise a no-op |
| `IntegrationService.WebhookRequest` | backend/src/services/integrationService.ts:96-116 | the URL comes only from the integration config; the POST carries campaign, data and time and no headers; a missing URL is a no-op |
| `IntegrationService.Settle` | backend/src/services/integrationService.ts:25 | one outcome per sender; a sender rejects iff it throws reading the config or its POST fails |
| `IntegrationService.SendersAreIndependent` | backend/src/services/integrationService.ts:25 | a sender's outcome depends on its own request alone, never on another sender's failure |
| `IntegrationService.NoOpsFulfil` | backend/src/services/integrationService.ts:34-37 | a missing credential or an unsupported type is not a failure |
| `IntegrationService.WebhookExample` | backend/src/services/integrationService.ts:96-116 | an active campaign with one enabled webhook yields exactly one POST to its URL with `{campaignId, data, submittedAt}` |
| `Auth.ExtractToken` | backend/src/middleware/auth.ts:17-21 | a token is found iff the header starts with the case-sensitive `Bearer `, and the header is that prefix followed by the token |
| `Auth.Authenticated` | backend/src/middleware/auth.ts:13-34 | a header is accepted iff it carries a token that verifies; without the prefix the answer is "No token provided" |
| `Auth.NoRolesPermitNoOne` | backend/src/middleware/auth.ts:40 | `authorize()` with no roles refuses every request |
| `Auth.Authenticate` | backend/src/middleware/auth.ts:13-34 | no prefix: 401 "No token provided"; a refused token: 401 "Invalid token"; both leave `req.user` and skip `next`; otherwise `req.user` is exactly the claimed id, email and role and `next` runs |
| `Auth.Authorize` | backend/src/middleware/auth.ts:36-46 | `next` runs iff a user is present with a listed role; otherwise 403 |
| `Routes.Resolve` | backend/src/routes/campaigns.ts:13-17 | a resolved route is in the table, has the verb and matches the path with the returned parameters |
| `Routes.TokenCheckedFirst` | backend/src/routes/campaigns.ts:15-17 | every guarded route runs `authenticate` first |
| `Routes.NoTokenIsUnauthorized` | backend/src/routes/campaigns.ts:15-17 | without a bearer token a guarded route answers 401, never 403 |
| `Routes.TokenChain` | backend/src/routes/submissions.ts:12-13 | the token-only chain admits exactly the requests whose token verifies and otherwise answers 401 |
| `Routes.RoleChain` | backend/src/routes/campaigns.ts:15-17 | the token-then-role chain admits exactly verified tokens with a listed role: 401 without one, 403 with another role |
| `Routes.CampaignReadsArePublic` | backend/src/routes/campaigns.ts:13-14 | listing and fetching campaigns reach their handlers whatever the header |
| `Routes.CampaignCreateNeedsWriter` | backend/src/routes/campaigns.ts:15 | create is handled iff the token verifies with role admin or editor; without a token the answer is 401 |
| `Routes.CampaignUpdateNeedsWriter` | backend/src/routes/campaigns.ts:16 | update is handled iff the token verifies with role admin or editor, with the id bound; any other role gets 403 |
| `Routes.OnlyAdminDeletes` | backend/src/routes/campaigns.ts:17 | delete is handled iff the role is admin; no token is 401, any other role 403 |
| `Routes.IntakeIsPublic` | backend/src/routes/submissions.ts:11 | creating a submission needs no token |
| `Routes.SubmissionReadsNeedToken` | backend/src/routes/submissions.ts:12-13 | list and export are handled iff the token verifies, whatever the role; otherwise 401 before the handler |
| `ApiClient.Storage.GetItem` | frontend/src/services/api.ts:15 | the stored value of a key, or none when absent |
| `ApiClient.Logout` | frontend/src/services/api.ts:51-53 | only the `authToken` entry is removed; every other entry is kept |
| `ApiClient.AuthorizationFor` | frontend/src/services/api.ts:16-18 | a header is produced iff a non-empty token is stored, and it is `Bearer ` followed by the token |
| `ApiClient.Intercept` | frontend/src/services/api.ts:14-20 | with a token stored, exactly the Authorization header is set; otherwise the headers are unchanged |
| `ApiClient.TokenRoundTrip` | frontend/src/services/api.ts:17 | the middleware's extraction recovers exactly the stored token |
| `ApiClient.ClientRole` | frontend/src/services/api.ts:14-20 | the server sees the role of the stored token's claims; with no token it answers "No token provided" |
| `ApiClient.ExportRequest` | frontend/src/services/api.ts:35-36 | the export path is the listing path with `/export` appended |
| `ApiClient.SubmissionBodyMatchesServer` | frontend/src/services/api.ts:31-32 | the posted body gives the server exactly the `campaignId` and `data` it destructures |
| `ApiClient.CampaignCallsLand` | frontend/src/services/api.ts:22-28 | each campaign call reaches its handler with the id bound |
| `ApiClient.SubmissionCallsLand` | frontend/src/services/api.ts:30-37 | each submission call reaches its handler with the campaign id bound |
| `ApiClient.ClientDelete` | frontend/src/services/api.ts:27 | a client's delete is handled iff its stored token verifies with role admin |
| `CampaignPage.RuleAt` | frontend/src/pages/CampaignPage.tsx:47 | a name has a rule iff it is a schema key, and with distinct names it is that entry's rule |
| `CampaignPage.Assign` | frontend/src/pages/CampaignPage.tsx:47 | assigning a name sets its rule, keeps the place of an existing name or appends a new one, and leaves other names alone |
| `CampaignPage.BuildSchema` | frontend/src/pages/CampaignPage.tsx:31-48 | the loop builds the schema of the field list |
| `CampaignPage.OneRulePerName` | frontend/src/pages/CampaignPage.tsx:31-48 | exactly one rule per distinct field name |
| `CampaignPage.LastFieldWins` | frontend/src/pages/CampaignPage.tsx:47 | a later field with the same name replaces an earlier one |
| `CampaignPage.UnnamedHasNoRule` | frontend/src/pages/CampaignPage.tsx:31-48 | a name no field carries has no rule |
| `CampaignPage.IsPhone` | frontend/src/pages/CampaignPage.tsx:44 | accepted iff an optional `+` is followed by one or more digits, whitespace, `-`, `(` or `)` |
| `CampaignPage.Check` | frontend/src/pages/CampaignPage.tsx:33-46 | a value passes iff it is a string, non-empty when required, an email for an email field and a phone number for a phone field; an empty required value reports the required issue first |
| `CampaignPage.PlainFieldsNeedOnlyAString` | frontend/src/pages/CampaignPage.tsx:33-47 | text, textarea, select and checkbox fields need a string, non-empty when required, and nothing else |
| `CampaignPage.EmptyPhoneRejected` | frontend/src/pages/CampaignPage.tsx:35-45 | an empty phone number is rejected even when the field is optional |
| `CampaignPage.RequiredMessage` | frontend/src/pages/CampaignPage.tsx:36 | an empty required field shows "<label> is required" |
| `CampaignPage.ValidateForm` | frontend/src/pages/CampaignPage.tsx:50 | the form passes iff every schema entry's check passes |
| `CampaignPage.OnSubmit` | frontend/src/pages/CampaignPage.tsx:68-72 | the entry is posted iff a route id is present, as `create(id, data)` |
| `CampaignPage.SubmittedEntryPassedTheRules` | frontend/src/pages/CampaignPage.tsx:31-72 | a posted entry has one string per field name, in schema order, each passing the rule of the last field with that name |

## Left out

- HTTP transport, Express and axios: handlers are methods that return a status and a body. Express's default case-insensitive path matching and the percent-decoding of path parameters are not modelled; paths match literally.
- The prefixes `/campaigns` and `/submissions` under which the routers are mounted come from the client's paths. The server entry file that mounts them is not part of this model.
- Asynchrony: the fire-and-forget dispatch and its `.catch`, and the concurrency of `Promise.allSettled`. Dispatch is a sequential plan of steps, and each sender's delivery outcome is the parameter `delivered`.
- Logging (`console.warn`, `console.error`, `console.log`).
- Token signing and verification (a JWT with the server secret) become the parameter `verify`. Zod's email check becomes `isEmail`. Neither is modelled inside.
- The database: queries, the `runValidators` machinery, `toObject`, and failures other than validation. Such failures (a malformed ObjectId cast, a lost connection) answer 500 in every handler and are not modelled. Identities are strings and the new identity is a parameter. Times are integers and the clock is the parameter `now`.
- Reading `integration.config.key` on a stored Mongoose `Map`: the model reads the map by key, as the code intends.
- Values in submission data are scalars: strings, integers, booleans and null. Floating-point numbers, nested objects and arrays, and their `String(...)` forms are not modelled.
- `CampaignPage.Assign`: a new name is appended after the existing ones. A JavaScript object lists array-index names (such as `"0"` or `"42"`) first, in ascending order, so for such field names the key order of `schemaFields` and of the posted body differs from the model. Lookups by name are unaffected.
- `Js.Value`: numbers are unbounded integers. A JavaScript number is a double, so values beyond 2^53 lose precision and `String(...)` writes `1e21` and above in exponent notation; neither is modelled.
- `CampaignModel.ApplyPatch`: a body that sets a path to `null`, or uses update operators, is not modelled.
- `SubmissionController.ForCampaign` and `CampaignController.CampaignTable.GetCampaigns`: the order among equal timestamps is left to the database by the code. The model picks one and states only the newest-first order.
- The axios instance's default `Content-Type` header and the blob response type of the export call.
- The client's integration endpoints and `authService.login`/`getCurrentUser`: no backend route for them is part of this model.
- Rendering, navigation and the dashboard view code; the seed and admin-creation scripts; configuration loading from environment variables (the credentials are the `ProcessConfig` parameter).
