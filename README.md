# ffrelay relay routing, modelled in Dafny

This project models the core of `ffrelay-api`, a Rust client for the Firefox
Relay email-alias service: how a relay (alias) is classified as a standard
`@mozmail.com` relay or a custom-domain relay, how a creation request is
built, and how the client routes `create`, `list`, `delete`, `enable` and
`disable` between the two REST sub-resources `v1/relayaddresses` (standard)
and `v1/domainaddresses` (domain).

The HTTP transport is not modelled. Each server answer is a parameter of
the operation that receives it:

- a GET or POST answer is a `Reply<T>`: the decoded value, a transport
  failure (`TransportFailed`, which also stands for a body that is not JSON
  at all) or a decoding failure (`DecodeFailed`, a JSON body of another
  shape);
- a DELETE or PATCH answer is a `Response`: an HTTP status, or a failure to
  send.

The client class `Api.RelayApi` keeps a real `log` of every request it sends
(verb, URL, authorization header value, body). Each method states the
requests it appends and the result it returns. Pure functions
(`Collected`, `FindById`, `DeleteTrace`, `ToggleTrace`, `DeleteOutcome`,
`ToggleOutcome`) describe that behaviour, and lemmas state what the client
promises about it.

Files:

- `wrappers.dfy`: `Option`.
- `errors.dfy`: the error kinds of `ffrelay-api/src/error.rs` and `Result`.
- `types.dfy`: `EmailRelay` with `IsDomain`, Rust's `split_once`, and the
  creation request with its builder.
- `decimal.dfy`: the decimal text of an id as it appears in a URL, with its
  inverse.
- `api.dfy`: endpoints, URL templates, requests, server answers and the
  client class.

Where the code and its documentation disagree, the model follows the code:

- `list` never returns an error. When both GETs fail it returns an empty
  list. Its doc comment (ffrelay-api/src/api.rs:304-305) says it fails when
  both fail. `RelayApi.List` ensures `r == Ok(Collected(std, dom))`, and
  `CollectedLayout` shows that two failures give `[]`.
- A found relay is deleted or toggled through the sub-resource chosen by
  `is_domain` on its address. It is not the sub-resource whose GET listed
  it. `RouteIgnoresListingOrigin` shows a relay listed by the domain GET
  with address `x@mozmail.com` being deleted through the standard
  sub-resource.
- "Every address ending in `@mozmail.com` is standard" does not hold. The
  split is at the first `@`, so `a@b@mozmail.com` is a domain relay
  (`IsDomainSecondAt`).

## Model

| member | source | states |
|---|---|---|
| `Types.SplitOnce` | ffrelay-api/src/types.rs:58 | `None` exactly when the separator is absent; otherwise `before + [sep] + after` rebuilds the input and `before` holds no separator, so the split is at the first occurrence |
| `Types.SplitOnceAt` | ffrelay-api/src/types.rs:58 | any decomposition at an occurrence with none before it is the split `split_once` returns |
| `Types.EmailRelay.IsDomain` | ffrelay-api/src/types.rs:57-63 | a domain relay always has an `@` in its address; the full characterisation is `IsDomainIff` |
| `Types.IsDomainWithoutAt` | ffrelay-api/src/types.rs:60-62 | an address without `@` is never a domain relay |
| `Types.IsDomainAtFirstAt` | ffrelay-api/src/types.rs:57-63 | for `local@domain` with no `@` in `local`, the relay is a domain relay iff `domain` is not exactly `mozmail.com` |
| `Types.IsDomainIff` | ffrelay-api/src/types.rs:57-63 | both directions: a domain relay iff there is a first `@` and the text after it is not `mozmail.com` |
| `Types.IsDomainReadsOnlyAddress` | ffrelay-api/src/types.rs:57-63 | two relays with the same address classify alike, whatever their id, description and counters |
| `Types.StandardAddressNotDomain` | ffrelay-api/src/types.rs:36-39 | `local@mozmail.com` with no `@` in `local` is a standard relay |
| `Types.IsDomainDocExample` | ffrelay-api/src/types.rs:46-55 | the documented `test@mozmail.com` is not a domain relay |
| `Types.IsDomainSecondAt` | ffrelay-api/src/types.rs:58 | `a@b@mozmail.com` is a domain relay: the domain part is `b@mozmail.com` |
| `Types.IsDomainSubdomain` | ffrelay-api/src/types.rs:59 | no suffix matching: `x@sub.mozmail.com` is a domain relay |
| `Types.IsDomainCaseSensitive` | ffrelay-api/src/types.rs:59 | the comparison is case-sensitive: `x@MOZMAIL.com` is a domain relay |
| `Types.IsDomainOtherDomain` | ffrelay-api/src/types.rs:59 | `xyz@custom.example` is a domain relay |
| `Types.RelayRequestBuilder.Description` | ffrelay-api/src/types.rs:89-90 | sets the description once and leaves the other fields as they were |
| `Types.RelayRequestBuilder.Enabled` | ffrelay-api/src/types.rs:92-94 | sets `enabled` once and leaves the other fields as they were |
| `Types.RelayRequestBuilder.Address` | ffrelay-api/src/types.rs:96-98 | sets the address to present once and leaves the other fields as they were |
| `Types.RelayRequestBuilder.MaybeAddress` | ffrelay/src/main.rs:135-138 | sets the optional address once; `None` keeps it absent |
| `Types.RelayRequestBuilder.Build` | ffrelay-api/src/types.rs:87-99 | needs a description; the request carries it, `enabled` is true unless explicitly set false, the address is whatever was set |
| `Types.Builder` | ffrelay-api/src/types.rs:66-70 | a fresh builder has no field set |
| `Types.BuildDefaults` | ffrelay-api/src/types.rs:66-80 | a request built from a description alone is enabled and has no address |
| `Types.BuildSetsExplicitFields` | ffrelay-api/src/types.rs:87-99 | explicitly set fields are kept; an unset `enabled` becomes true |
| `Decimal.ToDecimal` | ffrelay-api/src/api.rs:158 | the id's text is non-empty, all digits, without a leading zero |
| `Decimal.ParseToDecimal` | ffrelay-api/src/api.rs:158 | reading the id's text back gives the id |
| `Decimal.ToDecimalInjective` | ffrelay-api/src/api.rs:158 | distinct ids have distinct texts |
| `Api.ListUrl` | ffrelay-api/src/api.rs:138 | the list URL lies below the API base (ffrelay-api/src/api.rs:32) and does not end in `/` |
| `Api.CreateUrl` | ffrelay-api/src/api.rs:113 | the creation URL is the list URL plus a trailing `/` |
| `Api.DeleteUrl` | ffrelay-api/src/api.rs:158 | the deletion URL is the creation URL followed by the id's decimal text, so it ends in a digit |
| `Api.PatchUrl` | ffrelay-api/src/api.rs:83 | the update URL is the deletion URL plus a trailing `/` |
| `Api.DeleteUrlInjective` | ffrelay-api/src/api.rs:158 | a delete URL determines its sub-resource and its id |
| `Api.PatchUrlInjective` | ffrelay-api/src/api.rs:83 | a patch URL determines its sub-resource and its id |
| `Api.IsSuccess` | ffrelay-api/src/api.rs:98 | success is exactly a status whose hundreds digit is 2 (reqwest's `is_success`, used again at ffrelay-api/src/api.rs:170) |
| `Api.AuthorizationHeader` | ffrelay-api/src/api.rs:82 | the header value is `Token `, then the token verbatim |
| `Api.FromReply` | ffrelay-api/src/api.rs:140-154 | a GET succeeds exactly when its answer decodes, with that value; otherwise `HttpError` or `Serialization` |
| `Api.CreatedAddress` | ffrelay-api/src/api.rs:117-132 | a creation succeeds exactly when its answer decodes, with the new relay's `full_address`; otherwise `HttpError` or `Serialization` |
| `Api.DeletionResult` | ffrelay-api/src/api.rs:162-176 | `Ok` iff the status is 2xx; any other status gives `EmailDeletionFailure` with that status; a send failure gives `HttpError` |
| `Api.UpdateResult` | ffrelay-api/src/api.rs:89-104 | `Ok` iff the status is 2xx; any other status gives `EmailUpdateFailure` with that status; a send failure gives `HttpError` |
| `Api.Harvest` | ffrelay-api/src/api.rs:328-334 | a GET that decoded contributes its relays; a failed GET contributes none |
| `Api.Collected` | ffrelay-api/src/api.rs:326-336 | a listing holds exactly the relays of both GETs: its length is the sum and its multiset is the union |
| `Api.CollectedLayout` | ffrelay-api/src/api.rs:325-337 | standard relays first, then domain relays, each in server order; a failed GET adds nothing; two failures give `[]` |
| `Api.FirstIndexWithId` | ffrelay-api/src/api.rs:182-188 | the index of the first relay with the id, `|relays|` when none has it |
| `Api.FindById` | ffrelay-api/src/api.rs:179-189 | `RelayIdNotFound` iff no relay has the id; otherwise the relay at the first position that has it |
| `Api.RouteFor` | ffrelay-api/src/api.rs:372-376 | a found relay is routed to the domain sub-resource iff its address has a first `@` followed by something other than `mozmail.com` (also ffrelay-api/src/api.rs:414-418 and 456-460) |
| `Api.DeleteTrace` | ffrelay-api/src/api.rs:369-378 | a deletion sends the two listing GETs, then three requests in all when the id is found and two otherwise |
| `Api.DeleteOutcome` | ffrelay-api/src/api.rs:369-379 | `RelayIdNotFound` iff the id is not listed; success only on a 2xx answer |
| `Api.ToggleTrace` | ffrelay-api/src/api.rs:411-420 | an enable or disable sends the two listing GETs, then three requests in all when the id is found and two otherwise |
| `Api.ToggleOutcome` | ffrelay-api/src/api.rs:411-421 | `RelayIdNotFound` iff the id is not listed; success only on a 2xx answer |
| `Api.DeleteMutatesOnlyWhenFound` | ffrelay-api/src/api.rs:369-379 | a deletion sends the two GETs first, then exactly one mutating request if the id is listed and none otherwise |
| `Api.DeleteTargetsRoute` | ffrelay-api/src/api.rs:372-378 | for a listed id the third and last request is a body-less DELETE to the domain URL iff the found relay is a domain relay |
| `Api.DeletesFoundRelay` | ffrelay-api/src/api.rs:369-378 | the full request sequence of a deletion whose id resolves, routed by `is_domain` |
| `Api.TogglesFoundRelay` | ffrelay-api/src/api.rs:411-420 | the full request sequence of an enable or disable whose id resolves, routed by `is_domain` |
| `Api.DeleteOutcomeCases` | ffrelay-api/src/api.rs:369-379 | `RelayIdNotFound` iff the id is not listed; `Ok` iff listed and 2xx; `EmailDeletionFailure(s)` iff listed and status `s` not 2xx; `HttpError` iff listed and the send failed |
| `Api.ToggleMutatesOnlyWhenFound` | ffrelay-api/src/api.rs:411-463 | enable or disable sends the two GETs, then exactly one mutating request if the id is listed and none otherwise |
| `Api.ToggleTargetsRoute` | ffrelay-api/src/api.rs:411-463 | for a listed id the last request is a PATCH carrying the flag, to the domain URL iff the found relay is a domain relay |
| `Api.ToggleOutcomeCases` | ffrelay-api/src/api.rs:411-463 | `RelayIdNotFound` iff not listed; `Ok` iff listed and 2xx; `EmailUpdateFailure(s)` iff listed and status `s` not 2xx; `HttpError` iff listed and the send failed |
| `Api.TwoRelayScenario` | ffrelay-api/src/api.rs:325-379 | with standard relay 1 and domain relay 2 listed, the listing is `[1, 2]`; deleting 2 targets the domain URL and deleting 1 the standard URL |
| `Api.RouteIgnoresListingOrigin` | ffrelay-api/src/api.rs:372-378 | a relay listed by the domain GET but addressed `x@mozmail.com` is deleted through the standard sub-resource |
| `Api.RelayApi.constructor` | ffrelay-api/src/api.rs:51-61 | a new client holds the token and has sent nothing |
| `Api.RelayApi.ToggleWithEndpoint` | ffrelay-api/src/api.rs:76-105 | appends one PATCH to `endpoint/id/` with the flag as body; the result is `UpdateResult` of the answer |
| `Api.RelayApi.CreateWithEndpoint` | ffrelay-api/src/api.rs:107-133 | appends one POST to `endpoint/` carrying the request; the result is the created address or the error |
| `Api.RelayApi.ListWithEndpoint` | ffrelay-api/src/api.rs:135-155 | appends one GET to `endpoint` without trailing slash; the result is the decoded relays or the error |
| `Api.RelayApi.DeleteWithEndpoint` | ffrelay-api/src/api.rs:157-177 | appends one body-less DELETE to `endpoint/id`; the result is `DeletionResult` of the answer |
| `Api.RelayApi.FindEmailRelay` | ffrelay-api/src/api.rs:179-189 | appends the two listing GETs; the result is the first listed relay with the id, or `RelayIdNotFound` |
| `Api.RelayApi.Create` | ffrelay-api/src/api.rs:283-291 | appends one POST, to the domain sub-resource iff the request has an address; returns the created address |
| `Api.RelayApi.List` | ffrelay-api/src/api.rs:325-337 | always sends both GETs, standard first, and always returns `Ok` of the collected relays |
| `Api.RelayApi.Delete` | ffrelay-api/src/api.rs:369-379 | appends exactly `DeleteTrace` and returns `DeleteOutcome`: no DELETE on `RelayIdNotFound`, otherwise one, routed by `is_domain` |
| `Api.RelayApi.Disable` | ffrelay-api/src/api.rs:411-421 | appends exactly `ToggleTrace` with flag false and returns `ToggleOutcome` |
| `Api.RelayApi.Enable` | ffrelay-api/src/api.rs:453-463 | appends exactly `ToggleTrace` with flag true and returns `ToggleOutcome` |

## Left out

- HTTP transport (reqwest) and JSON encoding and decoding (serde): each answer is an input, already decoded or marked as failed. For GET and POST the client never looks at the status code. The body is first read as JSON (ffrelay-api/src/api.rs:125-126, 147-148): a body that is not JSON fails there and gives `HttpError` (`TransportFailed`). Only JSON of another shape reaches `serde_json::from_value` (ffrelay-api/src/api.rs:130, 152) and gives `Serialization` (`DecodeFailed`). A non-2xx answer therefore gives `HttpError` when its body is not JSON, `Serialization` when it is JSON of another shape, or a successful decode when its body happens to have the expected shape.
- Api.RelayApi.ToggleWithEndpoint: the PATCH body is the `enabled` flag alone, the documented `{enabled}` shape. It does not follow ffrelay-api/src/api.rs:87-94, which would serialise a whole `FirefoxEmailRelayRequest` (description, enabled, and a null address) and, as written, does not compile because the builder's required `description` is never set.
- The `EmailUpdateFailure` error kind: the PATCH helper returns it (ffrelay-api/src/api.rs:101-103), but the enum in `error.rs` does not declare it. The model adds the variant so that the helper's failure path can be stated.
- The `content-type: application/json` header: it is the same on every request, so the log does not record it.
- `profiles()` and `FirefoxRelayProfile`: one fixed GET and a decode, with no logic.
- `Error::RequestFailure`: declared in `error.rs` but never produced by the client. It is in the datatype but no operation returns it.
- async/await and the `info!` log lines: they do not affect results.
- ffrelay/src/token.rs (token file on disk) and ffrelay-api/src/lib.rs (module declarations) are not part of this model. Of ffrelay/src/main.rs only the builder's generated `maybe_address` setter, which main.rs:135-138 calls, is modelled (`MaybeAddress`); its argument parsing, table output, and batch loops that call one operation per id and print each outcome are not part of this model.
- The builder is modelled by its runtime effect. Its compile-time checks are preconditions: a field set twice, or `Build` without a description, does not compile in the source.
