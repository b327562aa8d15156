# Tailscale authentication-key backend for Vault, modelled in Dafny

The backend is a Vault secrets-engine plugin that issues single-use device
authentication keys for a Tailscale tailnet. It keeps one configuration
record in Vault storage under the key `config` (tailnet, API key, API URL,
OAuth client ID, secret and scopes) and serves three requests:

- writing `config` validates the six fields in a fixed order (tailnet, then
  some credential, then API URL) and, only if all three checks pass,
  replaces the stored record wholesale;
- reading `config` returns the stored fields verbatim, or reports that the
  configuration has not been set;
- reading `key` builds a Tailscale client from the stored record (API-key
  authentication when an API key is present, OAuth client credentials
  otherwise), asks the Tailscale API once for a key with the requested
  tags, preauthorized and ephemeral flags (never reusable), and answers
  with the key the API returned and the capabilities it actually granted.

The model:

- `wrappers.dfy` (`Wrappers`): `Option` and `Result`.
- `errors.dfy` (`Errors`): the error kinds and their texts.
- `configuration.dfy` (`Configuration`): the `Config` record, the
  `api_url` default applied at the request boundary, the ordered checks
  (`Check`, against the reference list `Broken` and predicate `Complete`)
  and the choice of authentication (`Client`).
- `keys.dfy` (`Keys`): key requests, capability sets, upstream keys, key
  responses, and the upstream authority as a pair of functions.
- `backend.dfy` (`Backend`): the class `Backend` whose field `slot` is the
  `config` entry, with the three handlers as methods; each method is proved
  equal to a specification function (`UpdateOutcome`, `ReadOutcome`,
  `IssueOutcome`) whose properties are proved as contracts and lemmas.
  `ReadConfiguration` and `GenerateKey` have no `modifies` clause, so the
  verifier guarantees that neither writes the entry.
- `lifecycle.dfy` (`Lifecycle`): the routing of a request to its handler
  (`Handle`, proved to change the entry as `Apply` does) and the entry over
  any sequence of requests, with inductive proofs that the last successful update wins, that reads
  and key issuance never write, and that the entry once set stays set.
- `scenarios.dfy` (`Scenarios`): the cases of the backend's tests, stated
  over the model.

Storage faults (lookup, decode, encode, put) and the upstream authority
(client construction and key creation) are parameters of the handlers:
`ReadFaults`, `WriteFaults` and `Upstream`. A storage or upstream error is
returned to the caller unchanged.

Where the documentation and the code disagree the model follows the code,
except for the one finding below: the code does not check for a missing
entry before decoding it in `GenerateKey`; the model records that as
written (`IssueAsWritten`) and uses the documented behaviour, a
`NotConfigured` error, everywhere else. The backend's tests expect
validation errors inside the response with a nil error value, while the
code returns them as the error value; the model treats them as failures of
the handler, as the code does. A read returns the API key and OAuth secret
in plain text, as the code does; nothing is redacted.

## Model

| member | source | states |
|---|---|---|
| `Errors.MessagesIdentifyErrors` | backend/backend.go:212-219 | the backend's own error texts are pairwise distinct, so each names the field that failed |
| `Errors.Message` | backend/backend.go:176-219 | the backend's own errors carry fixed texts that name the field or entry at fault (tailnet; api_key and oauth_client_id; api_url; configuration); a collaborator error carries its own text |
| `Configuration.WithDefaults` | backend/backend.go:97-101 | a supplied api_url is kept as given, even when empty, and every other field is kept verbatim; an omitted api_url becomes `https://api.tailscale.com`; the resulting URL is empty exactly when the caller supplied an empty one |
| `Configuration.DefaultsOnlyFillApiUrl` | backend/backend.go:97-101 | supplying every field stores exactly those fields; omitting api_url is the same as supplying `https://api.tailscale.com` |
| `Configuration.Check` | backend/backend.go:212-219 | the checks pass exactly for records with a tailnet, a credential and an API URL, and otherwise report the first rule broken in the order tailnet, credential, api_url |
| `Configuration.EmptyTailnetReportedFirst` | backend/backend.go:212-214 | an empty tailnet is reported whatever the other fields hold |
| `Configuration.MissingCredentialReportedSecond` | backend/backend.go:215-216 | with a tailnet, no API key and no OAuth client ID is reported before the URL is looked at |
| `Configuration.EmptyApiUrlOnlyWhenSupplied` | backend/backend.go:217-218 | the empty-api_url error occurs exactly when the other checks pass and api_url was supplied as the empty string |
| `Configuration.Client` | backend/backend.go:32-41 | API-key authentication if and only if the API key is non-empty, with that key; otherwise OAuth with the record's client ID, secret and scopes; tailnet and base URL passed on in both cases |
| `Configuration.ApiKeyIgnoresOAuthFields` | backend/backend.go:33-35 | with an API key present, changing the OAuth fields does not change the client |
| `Configuration.CompleteSelectsPresentCredential` | backend/backend.go:32-41 | every record that passes the update checks selects a non-empty credential |
| `Keys.Requested` | backend/backend.go:151-154 | the capability set asked for is never reusable and carries the request's tags, preauthorized and ephemeral options unchanged |
| `Keys.RequestableExactlyNonReusable` | backend/backend.go:151-154 | a capability set can be requested if and only if it is not reusable |
| `Keys.Project` | backend/backend.go:161-170 | the response is computed from the upstream key alone and loses none of its fields |
| `Keys.ProjectBijective` | backend/backend.go:161-170 | every response comes from exactly one upstream key |
| `Backend.UpdateOutcome` | backend/backend.go:202-231 | an update succeeds if and only if the defaulted record passes the checks and storage succeeds, and then stores exactly that record regardless of the old one; validation errors take precedence over storage errors; an encode failure is returned with its own text, and otherwise a put failure with its own |
| `Backend.ReadOutcome` | backend/backend.go:175-198 | a lookup failure is returned as is, then a missing entry gives `NotConfigured`, then a decode failure is returned as is; a successful read returns the stored record verbatim |
| `Backend.IssueWith` | backend/backend.go:141-171 | once the entry is found, issuance succeeds if and only if decoding, client construction and key creation succeed, and answers with the projection of the key created for the requested capabilities |
| `Backend.IssueOutcome` | backend/backend.go:135-172 | a lookup failure is returned as is, a missing entry gives `NotConfigured`, otherwise the issuance above |
| `Backend.IssuePropagatesFaults` | backend/backend.go:141-159 | decode, client-construction and key-creation failures reach the caller unchanged, each at the first step that fails |
| `Backend.FaultTextsReachCaller` | backend/backend.go:136-227 | in every handler, a lookup, decode, encode, put, client-construction or key-creation failure reaches the caller with that failure's own text, at the step where it happened |
| `Backend.IssueAsksUpstreamOnce` | backend/backend.go:146-159 | the outcome depends on upstream only through one client construction and one key creation for the requested capabilities |
| `Backend.IssueReportsGrant` | backend/backend.go:161-170 | two requests answered with the same key get the same response, and the reported flags are those upstream granted |
| `Backend.IssueAsWritten` | backend/backend.go:135-172 | the handler as written panics exactly when the lookup succeeds but finds no entry |
| `Backend.UnsetSlotPanicsAsWritten` | backend/backend.go:133-143 | without an entry the handler as written panics where the corrected one returns `NotConfigured`; in every other case the two agree |
| `Backend.Backend.constructor` | backend/backend.go:57-58 | a newly mounted backend has no configuration entry |
| `Backend.Backend.UpdateConfiguration` | backend/backend.go:202-231 | reports the outcome of `UpdateOutcome`; on success the entry is the defaulted record, on any failure it is exactly the old entry |
| `Backend.Backend.ReadConfiguration` | backend/backend.go:175-198 | returns `ReadOutcome` of the current entry and changes nothing |
| `Backend.Backend.GenerateKey` | backend/backend.go:135-172 | returns `IssueOutcome` of the current entry and never writes it |
| `Lifecycle.Handle` | backend/backend.go:79-121 | a request routed to its handler leaves the backend's entry as `Apply` says and answers with that handler's outcome, so the lemmas about `Run` hold of the backend object |
| `Lifecycle.EntryIsLastWrite` | backend/backend.go:221-228 | after any sequence of requests the entry is the record of the last successful update, nothing merged from earlier ones, or the starting entry if none succeeded |
| `Lifecycle.SetStaysSet` | backend/backend.go:221-228 | once a record is stored, no sequence of requests removes it |
| `Lifecycle.OnlyUpdatesWrite` | backend/backend.go:135-199 | a sequence of reads and key requests leaves the entry unchanged |
| `Lifecycle.FailedUpdateKeepsEntry` | backend/backend.go:212-228 | a failed update leaves the entry exactly as it was |
| `Lifecycle.ReadAfterUpdate` | backend/backend.go:189-197 | after a successful update a read returns the updated record in all six fields, with the default API URL if api_url was omitted |
| `Lifecycle.UpdateIdempotent` | backend/backend.go:221-226 | making the same update twice leaves the same entry as making it once |
| `Lifecycle.IssueBeforeConfiguration` | backend/backend.go:133-134 | until an update succeeds, key requests and reads report `NotConfigured` |
| `Scenarios.GenerateKeyScenario` | backend/backend_test.go:41-64 | a request with no options answered by key 12345/test yields that id and secret, zero expiry, no tags and all flags false |
| `Scenarios.UpdateScenario` | backend/backend_test.go:163-177 | an update with tailnet and API key only stores them with the default API URL |
| `Scenarios.MissingCredentialScenario` | backend/backend_test.go:179-189 | an update without credential fails and leaves the entry unchanged |
| `Scenarios.MissingTailnetScenario` | backend/backend_test.go:190-199 | an update without tailnet fails and leaves the entry unchanged |
| `Scenarios.ReadUnsetScenario` | backend/backend_test.go:112-116 | reading an unconfigured backend fails with "configuration has not been set" |

## Findings

| source | as written | input that shows it | evidently intended | confidence | as-written member | corrected member |
|---|---|---|---|---|---|---|
| backend/backend.go:133-143 | `GenerateKey` calls `DecodeJSON` on the entry returned by the storage lookup without checking that one was found | a key request on a backend that has never been configured: the lookup returns no entry and no error, and decoding dereferences the absent entry | return an error saying the configuration does not exist, as the doc comment on the handler says and as `ReadConfiguration` does | not executed; read from the code | `Backend.IssueAsWritten`, shown by `Backend.UnsetSlotPanicsAsWritten` | `Backend.IssueOutcome` |

## Left out

- The path and field-schema table built in `Create` is Vault framework wiring; only its effects are modelled: the `api_url` default (`WithDefaults`) and the routing of each operation to its handler (`Lifecycle.Handle`).
- The loosely typed field extraction of the request data is replaced by the typed records `ConfigFields` and `KeyRequest`; an omitted string, list or flag is the empty string, empty list or false. Go's distinction between a nil and an empty list of tags or scopes is not modelled.
- JSON encoding and decoding of the stored record and the storage collaborator itself are not modelled: the entry is an `Option<Config>`, and their failures are the parameters `ReadFaults` and `WriteFaults`. A failed put is assumed to leave the entry as it was (storage is atomic per key).
- The Tailscale API client, its construction and the OAuth token exchange are foreign network code; they are the two functions of `Upstream`. `Key` holds only the fields the handler reads.
- Expiry times are opaque `Timestamp` values that are only copied.
- Request contexts, cancellation and concurrent requests are not modelled; `Lifecycle` handles requests one at a time, in order.
- main.go (plugin start-up, flag parsing, TLS) is process plumbing and is not part of this model.
- The mock HTTP server of the tests is not modelled; `Scenarios.FixedUpstream` plays its part.
