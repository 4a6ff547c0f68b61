# Guardium Data Protection provider: appliance client model

This project is a Dafny model of the appliance-facing core of the Terraform
provider for IBM Guardium Data Protection. It covers:

- the API client (`internal/gdp/client.go`): the OAuth password-grant token
  exchange, profile import (a multipart upload for a file on the client
  machine, or the legacy JSON form naming a path on the appliance), bulk
  connector install, and the VA (vulnerability assessment) datasource
  registration, configuration and notification calls;
- the error-keyword scanner those calls use to decide that a 200 answer
  still reports a failure;
- the AWS Secrets Manager operations (`internal/gdp/aws_secrets_manager.go`):
  list, look up by name, create, update, delete;
- the two payload builders for VA configuration and VA notifications;
- the AWS Secrets Manager Terraform resource, whose Create is an upsert and
  whose Read removes the resource when the configuration is gone.

The network is a parameter. Each operation receives the appliance's answer
as a `Response`: either the send failed, or a status arrived together with
a body that could not be read, could not be decoded, or decoded to a value.
Each operation returns the request it built, so the contracts state both
what is sent and the verdict. The verdict is the Go `error`, reduced to its
kind. The local file system is a parameter too: for profile import, a
`LocalFile` value says whether the path exists on the client machine and
what reading it gives.

Files:

- `http.dfy`: requests, responses, JSON values, error kinds.
- `text.dfy`: ASCII lower-casing, substring search, base name of a path.
- `client.dfy`: the client operations, the keyword scanner, and the findings.
- `secrets_manager.dfy`: the AWS Secrets Manager client operations and
  their specification functions.
- `datasource_builder.dfy`, `notifications_builder.dfy`: the builders, as
  classes over one mutable payload object.
- `secrets_manager_resource.dfy`: the resource's Create, Read, Update and
  Delete over a mutable response object.

Where the code and its comments or tests disagree, the model follows the
code:

- RegisterVADataSource, ConfigureVADataSource and ConfigureVANotifications
  return a nil error after logging a status other than 200/201.
- BulkInstallConnector decodes the body before it looks at the status.
- The token exchange rejects only status 400.

Each of these is modelled as written, and also in a corrected form (see
"## Findings").

## Model

| member | source | states |
|---|---|---|
| Text.ToLower | internal/gdp/client.go:257 | the lower-cased message has the same length, with each ASCII capital replaced by its small letter and every other character kept |
| Text.Contains | internal/gdp/client.go:259 | the empty keyword occurs in every message, and a keyword longer than the message never occurs in it |
| Text.ContainsMiddle | internal/gdp/client.go:259 | a keyword placed anywhere in a message is found in it |
| Text.Base | internal/gdp/client.go:132 | the upload file name is never empty, and it is "/" or holds no separator |
| Text.BaseOfJoin | internal/gdp/client.go:132 | a file "dir/name" is uploaded under the name "name" |
| Text.BaseOfName | internal/gdp/client.go:132 | a bare file name is uploaded under itself |
| GdpClient.NewClient | internal/gdp/client.go:32-37 | a new client keeps host and port and has an empty protocol |
| GdpClient.NewInsecureClient | internal/gdp/insecureClient.go:16-25 | the insecure client keeps host and port and forces the protocol to https |
| GdpClient.ContainsErrorKeywords | internal/gdp/client.go:245-263 | the scan returns true exactly when the lower-cased message contains one of the eight keywords |
| GdpClient.KeywordsAreLowerCase | internal/gdp/client.go:246-255 | every keyword is non-empty and has no capital letter, so the message is lower-cased and the keywords are used as they are |
| GdpClient.KeywordScanIgnoresCase | internal/gdp/client.go:257-259 | a message and its lower-cased form get the same verdict |
| GdpClient.KeywordAnywhereIsFound | internal/gdp/client.go:257-261 | a keyword, in any letter case and anywhere in the message, is found |
| GdpClient.EmptyMessageHasNoKeyword | internal/gdp/client.go:237 | the empty message has no keyword, so the `Message != ""` guard never changes a verdict |
| GdpClient.DenylistImpliesKeyword | internal/gdp/client.go:271-275 | the one denylisted bulk-install message also contains the keyword "could not" |
| GdpClient.GenerateAccessToken | internal/gdp/client.go:43-90 | a POST to /oauth/token with the five credential query parameters, no headers and no body; a failed send, status 400, an unreadable body or an undecodable body is an error; any other answer yields the decoded token |
| GdpClient.ImportProfilesFromFile | internal/gdp/client.go:106-242 | a path on the client machine is uploaded as a multipart form (file part under its base name, then updateMode, then TestConnections=false); any other path is sent as JSON {updateMode, path}; open and copy failures stop before sending; the answer succeeds exactly when its status is 200 and its body is undecodable or has a keyword-free Message |
| GdpClient.ImportServerPathExample | internal/gdp/client_test.go:189-245 | for the test's path, the JSON form is sent with the bearer and JSON headers and a 200 answer succeeds |
| GdpClient.ImportServerErrorExample | internal/gdp/client_test.go:197-204 | status 500 makes the import fail |
| GdpClient.ImportLocalFileExample | internal/gdp/client.go:116-161 | the local file /tmp/profiles.csv is uploaded under the name profiles.csv with its bytes unchanged |
| GdpClient.BulkInstallConnector | internal/gdp/client.go:283-347 | the request is {profileNames, hosts}; an undecodable body succeeds whatever the status; a decoded body fails on a status other than 200, on the denylisted message or on a keyword; both directions of the success condition |
| GdpClient.RegisterVADataSource | internal/gdp/client.go:356-412 | the payload, a JSON object or null, is posted to /restAPI/datasource; only a failed send or an unreadable body is an error; any other status succeeds |
| GdpClient.RegisterNullPayloadExample | internal/gdp/client.go:363-372 | a null payload decodes to the nil map without a panic and is sent as null |
| GdpClient.ConfigureVADataSource | internal/gdp/client.go:422-466 | posted to /restAPI/va/config; succeeds exactly when a body arrives and decodes, whatever the status |
| GdpClient.ConfigureVANotifications | internal/gdp/client.go:476-512 | posted to /restAPI/notifications; succeeds exactly when a body arrives and decodes, whatever the status |
| GdpClient.BulkInstallServerErrorExample | internal/gdp/client.go:323-332 | as written, status 500 with an empty body succeeds |
| GdpClient.BulkInstallConnectorChecked | internal/gdp/client_test.go:294-301 | with the status checked first, a status other than 200 fails and success needs status 200 |
| GdpClient.TokenServerErrorExample | internal/gdp/client.go:71-89 | as written, status 500 with a decodable error body yields an empty token |
| GdpClient.GenerateAccessTokenChecked | internal/gdp/client_test.go:87-96 | with every status other than 200 rejected, status 400 keeps its credentials error and success needs status 200 and a decoded body |
| GdpClient.RegisterServerErrorExample | internal/gdp/client.go:406-410 | as written, status 500 succeeds |
| GdpClient.RegisterVADataSourceChecked | internal/gdp/client.go:406-411 | with the logged failure returned, success needs status 200 or 201 |
| GdpClient.ConfigureServerErrorExample | internal/gdp/client.go:459-464 | as written, status 500 with a decodable body succeeds |
| GdpClient.ConfigureVADataSourceChecked | internal/gdp/client.go:459-465 | with the logged failure returned, success needs a decoded body and status 200 or 201 |
| GdpClient.NotificationsServerErrorExample | internal/gdp/client.go:506-510 | as written, status 500 with a decodable body succeeds |
| GdpClient.ConfigureVANotificationsChecked | internal/gdp/client.go:506-511 | with the logged failure returned, success needs a decoded body and status 200 or 201 |
| SecretsManager.NewAWSSecretsManagerConfig | internal/gdp/aws_secrets_manager.go:25-34 | each argument lands in its own field |
| SecretsManager.ToClientConfig | internal/gdp/aws_secrets_manager.go:189-199 | the field-by-field renaming from a server record to a client record |
| SecretsManager.DroppedFieldsIgnored | internal/gdp/aws_secrets_manager.go:189-199 | id, role ARN and the secretsManager flag have no influence on the client record |
| SecretsManager.Translated | internal/gdp/aws_secrets_manager.go:188-199 | the listing keeps its length and order, and translates each record |
| SecretsManager.ListedConfigs | internal/gdp/aws_secrets_manager.go:136-202 | the listing succeeds exactly on status 200 with a decodable body; any other status is a server error carrying that status |
| SecretsManager.GetAllAWSSecretsManagerConfigs | internal/gdp/aws_secrets_manager.go:136-202 | GET of the listing with only the bearer header; the result is the listing's specification |
| SecretsManager.GetExistingAWSSecretsManagerNames | internal/gdp/aws_secrets_manager.go:119-133 | the names of the listed configurations, in listing order; a listing error is wrapped |
| SecretsManager.FindByName | internal/gdp/aws_secrets_manager.go:213-220 | the first configuration with the name, and none exactly when no configuration has it |
| SecretsManager.FindByNameIsFirst | internal/gdp/aws_secrets_manager.go:213-216 | the lookup returns the configuration at the first index bearing the name |
| SecretsManager.Lookup | internal/gdp/aws_secrets_manager.go:205-221 | a listing error is wrapped; otherwise the first match, or none without an error |
| SecretsManager.LookupFinds | internal/gdp/aws_secrets_manager.go:205-221 | on a good listing, the lookup finds a configuration exactly when a server record has the name, and it has that name |
| SecretsManager.GetAWSSecretsManager | internal/gdp/aws_secrets_manager.go:205-221 | the scan returns the lookup's specification |
| SecretsManager.StatusOutcome | internal/gdp/aws_secrets_manager.go:69-70 | a failed send is an error; an answer succeeds exactly when its status is accepted, and otherwise fails with that status |
| SecretsManager.CreateAWSSecretsManager | internal/gdp/aws_secrets_manager.go:37-75 | POST of the whole record as JSON; succeeds exactly on 200 or 201 |
| SecretsManager.UpdateAWSSecretsManager | internal/gdp/aws_secrets_manager.go:78-116 | PUT of the whole record as JSON; succeeds exactly on 200 or 201 |
| SecretsManager.CreateAndUpdateShareBody | internal/gdp/aws_secrets_manager.go:50-53 | create and update send the same request except for the HTTP method |
| SecretsManager.DeleteAWSSecretsManager | internal/gdp/aws_secrets_manager.go:224-270 | DELETE with the body {name}; succeeds exactly on 200 or 204 |
| DatasourceBuilder.ConfigureDatasourcePayload.constructor | internal/gdp/configureDataSourceBuilder.go:14-25 | the zero payload: empty strings, Enabled false |
| DatasourceBuilder.ConfigureDatasourcePayloadBuilder.constructor | internal/gdp/configureDataSourceBuilder.go:28-34 | a fresh zero payload is held |
| DatasourceBuilder.ConfigureDatasourcePayloadBuilder.DatasourceName | internal/gdp/configureDataSourceBuilder.go:37-40 | sets the name, keeps every other field, returns the same builder |
| DatasourceBuilder.ConfigureDatasourcePayloadBuilder.Enabled | internal/gdp/configureDataSourceBuilder.go:43-46 | sets Enabled, keeps every other field, returns the same builder |
| DatasourceBuilder.ConfigureDatasourcePayloadBuilder.Frequency | internal/gdp/configureDataSourceBuilder.go:49-52 | sets the schedule's frequency, keeps every other field, returns the same builder |
| DatasourceBuilder.ConfigureDatasourcePayloadBuilder.Day | internal/gdp/configureDataSourceBuilder.go:55-58 | sets the schedule's day, keeps every other field, returns the same builder |
| DatasourceBuilder.ConfigureDatasourcePayloadBuilder.Time | internal/gdp/configureDataSourceBuilder.go:61-64 | sets the schedule's time, keeps every other field, returns the same builder |
| DatasourceBuilder.ConfigureDatasourcePayloadBuilder.Build | internal/gdp/configureDataSourceBuilder.go:67-69 | the JSON object with keys datasource_name, schedule, enabled, in order, holding the current fields |
| DatasourceBuilder.BuildVAConfigPayload | internal/provider/configure_va_datasource_resource.go:133-138 | the resource's chain yields the given name and schedule with enabled true |
| DatasourceBuilder.LastWriteWins | internal/gdp/configureDataSourceBuilder.go:37-40 | all setters write one shared payload, so a second write to a field replaces the first |
| NotificationsBuilder.ConfigureNotificationsPayload.constructor | internal/gdp/notificationsDataSourceBuilder.go:9-15 | the zero payload: empty strings, nil recipients, Enabled false |
| NotificationsBuilder.RecipientsJson | internal/gdp/notificationsDataSourceBuilder.go:12 | nil recipients encode as null; otherwise the array of the addresses in order |
| NotificationsBuilder.ConfigureNotificationsPayloadBuilder.constructor | internal/gdp/notificationsDataSourceBuilder.go:23-27 | a fresh zero payload is held |
| NotificationsBuilder.ConfigureNotificationsPayloadBuilder.DatasourceName | internal/gdp/notificationsDataSourceBuilder.go:30-33 | sets the name, keeps every other field, returns the same builder |
| NotificationsBuilder.ConfigureNotificationsPayloadBuilder.NotificationType | internal/gdp/notificationsDataSourceBuilder.go:36-39 | sets the type, keeps every other field, returns the same builder |
| NotificationsBuilder.ConfigureNotificationsPayloadBuilder.Recipients | internal/gdp/notificationsDataSourceBuilder.go:42-45 | stores the slice as given, keeps every other field, returns the same builder |
| NotificationsBuilder.ConfigureNotificationsPayloadBuilder.Severity | internal/gdp/notificationsDataSourceBuilder.go:48-51 | sets the severity, keeps every other field, returns the same builder |
| NotificationsBuilder.ConfigureNotificationsPayloadBuilder.Enabled | internal/gdp/notificationsDataSourceBuilder.go:54-57 | sets Enabled, keeps every other field, returns the same builder |
| NotificationsBuilder.ConfigureNotificationsPayloadBuilder.Build | internal/gdp/notificationsDataSourceBuilder.go:60-62 | the JSON object with keys datasource_name, notification_type, recipients, severity, enabled, in order, holding the current fields |
| NotificationsBuilder.BuildVANotificationsPayload | internal/provider/configure_va_notifications_resource.go:140-146 | the resource's chain yields the given fields with enabled true |
| SecretsManagerResource.ConfigOf | internal/provider/aws_secrets_manager_resource.go:121-128 | the client record carries the plan's six configuration attributes |
| SecretsManagerResource.CreatedState | internal/provider/aws_secrets_manager_resource.go:155-156 | the stored state is the plan with its name as the id |
| SecretsManagerResource.RefreshedState | internal/provider/aws_secrets_manager_resource.go:188-191 | only the name and the authentication type are refreshed; the secrets keep their prior values |
| SecretsManagerResource.AWSSecretsManagerResource.Create | internal/provider/aws_secrets_manager_resource.go:111-161 | with no CA path: one lookup, then an update if a configuration of that name exists, else a create; a lookup or write error leaves the state and adds one diagnostic; otherwise, and always with a CA path (no calls), the state is the plan with its name as the id |
| SecretsManagerResource.AWSSecretsManagerResource.Read | internal/provider/aws_secrets_manager_resource.go:164-197 | with no CA path: one lookup; an error leaves the state; after a successful lookup the resource is removed exactly when nothing was found, and otherwise name and authentication type are refreshed; with a CA path the prior state is stored |
| SecretsManagerResource.AWSSecretsManagerResource.Update | internal/provider/aws_secrets_manager_resource.go:200-230 | with no CA path: one update call without any existence check; the plan is stored unless the update fails |
| SecretsManagerResource.AWSSecretsManagerResource.Delete | internal/provider/aws_secrets_manager_resource.go:233-250 | with no CA path: one delete call by name, and a diagnostic exactly when it fails; the state is not touched |

## Left out

- HTTP transport, TLS settings, contexts and logging (tflog) are not modelled. The answer to every call is a parameter.
- The wire encodings are not modelled: JSON text, URL query encoding, multipart framing. Requests carry structured bodies and headers as maps. The multipart boundary is a parameter, because the writer picks it at random.
- ConfigureVADataSource: the Go code marshals a `[]byte` payload, which puts a base64 JSON string on the wire. The model sends the payload's JSON value.
- RegisterVADataSource: the decode and re-marshal of the payload into a map, which sorts its keys, is not modelled; the JSON value is sent as given. The source panics on a payload that is neither a JSON object nor null, and the model states that case as a precondition.
- ConfigureVADataSource and ConfigureVANotifications decode straight from the body stream, so a read failure shows up as a decode error there. The model reports it as a read error; either way the call fails.
- Malformed endpoints are not modelled. A host, port or protocol that does not form a valid URL, including the empty protocol NewClient leaves, makes every call fail before it sends anything; the model assumes a well-formed URL.
- Failures of JSON marshalling for these plain structs, and of writes by the multipart writer into its memory buffer, are not modelled; neither can fail for these values.
- JSON numbers are kept as their literal text; number formatting and precision are not modelled.
- Error message texts are reduced to error kinds (`Error`); diagnostics keep their summaries and the error kind.
- Text.ToLower: lower-cases ASCII letters only; the Unicode case mapping of bytes.ToLower is not modelled.
- Text.Base: models filepath.Base for '/' as separator only (no Windows volumes or backslashes).
- Builders' Build returns the JSON value, not the marshalled bytes, and it never fails; json.Marshal of these structs cannot fail.
- The provider and resource glue is not modelled: provider configuration, schemas, Metadata, Configure, ImportState, and the framework's Plan/State decoding diagnostics. The resource's client is given at construction.
- The framework's removal of state after a successful Delete is not modelled; Delete leaves the state to the framework.
- The CA-path (secure client) branch makes no API calls in the source, and the model has none either.
- The other provider resources (import profiles, install connector, register, configure, notifications) are not modelled beyond the two builder chains they run.

## Findings

| source | as written | input that shows it | evidently intended | confidence | as-written member | corrected member |
|---|---|---|---|---|---|---|
| internal/gdp/client.go:323-332 | the body is decoded before the status is checked, and an undecodable body returns nil | status 500 with an empty body | a non-200 status fails, as the server-error unit test and ImportProfilesFromFile's order show | not executed | GdpClient.BulkInstallServerErrorExample | GdpClient.BulkInstallConnectorChecked |
| internal/gdp/client.go:71-89 | only status 400 is rejected; any other status with a decodable body returns the token | status 500 with body {"error":"internal server error"} gives an empty token | a non-200 status fails, as the token server-error unit test expects | not executed; low, because that test also disagrees with the code in how it builds the client and which client_id it checks | GdpClient.TokenServerErrorExample | GdpClient.GenerateAccessTokenChecked |
| internal/gdp/client.go:406-410 | the status branch returns `err`, which is nil after the successful body read | status 500 | a status other than 200/201 is returned as an error, as the error log shows | not executed | GdpClient.RegisterServerErrorExample | GdpClient.RegisterVADataSourceChecked |
| internal/gdp/client.go:459-464 | the status branch returns `err`, which is nil after the successful send | status 500 with a decodable body | a status other than 200/201 is returned as an error | not executed | GdpClient.ConfigureServerErrorExample | GdpClient.ConfigureVADataSourceChecked |
| internal/gdp/client.go:506-510 | the status branch returns `err`, which is nil after the successful send | status 500 with a decodable body | a status other than 200/201 is returned as an error | not executed | GdpClient.NotificationsServerErrorExample | GdpClient.ConfigureVANotificationsChecked |
