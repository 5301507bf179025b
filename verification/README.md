# pingall: probe aggregator and per-region probe, modelled in Dafny

pingall measures how long it takes to reach a target URL from many cloud
regions. A small probe runs in every region of four providers (gcp, aws,
azure, alicloud). An aggregator service fans one `GET /?url=<target>` out to
every probe and streams the answers back as newline-delimited JSON.

This project models the decision logic of three source files:

- `ping-service/ping_thing/main.py` holds the aggregator. The model covers:
  - the caller-authentication dependency;
  - the planner that builds one probe task per registry entry, visiting the
    sections `faas.gcp`, `faas.aws`, `faas.azure` and `faas.alicloud` in that
    order;
  - the per-provider request functions: URL, query, headers, SigV4 scope and
    the record each one returns;
  - the `as_completed` loop that writes one JSON line per finished task.
- `app/src/main.rs` holds the probe. The model covers which cloud a build
  selects, the port it listens on, how a `?url=` query is routed to a TCP
  connect or an HTTP GET, and how outcomes map to errors or to a millisecond
  reply.
- `faas/gcp.py` holds the gcp deployer. The model covers its location filter.

Modules: `Outcomes` (Option/Result), `Text` (prefix and substring tests),
`Registry` (the loaded `urls` object), `Planner`, `Dispatch`, `Stream`,
`Auth`, `Service` (the root route), `Locations` (gcp.py) and `Probe`
(main.rs).

Python dicts are modelled as insertion-ordered entry lists with distinct keys
(`Registry.Dict`). Their map view is `Registry.AsMap`. Each external call is a
parameter of the operation that uses it:

- the identity provider's token verifier;
- name resolution, TCP connect and the HTTP client of the probe;
- the JSON encoder;
- the order in which tasks complete.

The minted outbound credentials and the elapsed milliseconds are plain inputs.

Three behaviours of the code that the model keeps:

- A task that raises ends the stream. No inline error record is written, and
  the records already sent stay sent (`Stream.Drain`).
- The caller is checked by one verifier call (`Auth.GetUserToken`).
- The aws signing scope depends on whether the substring `lambda` occurs
  anywhere in the endpoint URL (`Dispatch.ServiceName`).

One observation about the probe: no combination of cargo features selects
`Cloud::None`. A build without a cloud feature is `GCP`. So the `None` arm of
`port()`, which falls back to 3000, never runs, and a default build panics
with "no port" when `PORT` is unset (`Probe.NoneNeverSelected`,
`Probe.DefaultBuildPort`).

## Model

| member | source | states |
|---|---|---|
| `Text.Contains` | ping-service/ping_thing/main.py:90 | Python's `sub in s` holds exactly when `sub` occurs at some position of `s` |
| `Registry.AsMap` | ping-service/ping_thing/main.py:65 | a loaded section binds each entry's region to its URL, binds nothing else, and has one key per entry |
| `Registry.KeyCountIsMembership` | ping-service/ping_thing/main.py:150-165 | a section lists a region once if the region is bound and not at all otherwise |
| `Planner.Plan` | ping-service/ping_thing/main.py:148-165 | planning fails exactly when some provider section is missing. The error names the first missing section in visit order. Every planned task is an entry of its provider's section, with that entry's URL |
| `Planner.PlanCount` | ping-service/ping_thing/main.py:149-165 | with all sections present, the task count is the sum of the four sections' sizes |
| `Planner.PlanOrder` | ping-service/ping_thing/main.py:150-165 | tasks come grouped by provider: gcp, then aws, azure, alicloud |
| `Planner.PlanSectionOrder` | ping-service/ping_thing/main.py:150-165 | the tasks of each provider are its section's entries, one each, in the section's iteration order |
| `Planner.PlanOnePerEntry` | ping-service/ping_thing/main.py:149-165 | a (provider, region) pair has exactly one task if the region is a key of that provider's section, and none otherwise |
| `Planner.PlanEntriesDistinct` | ping-service/ping_thing/main.py:149-165 | no two tasks of a plan share both provider and region |
| `Dispatch.ServiceName` | ping-service/ping_thing/main.py:89-91 | the SigV4 service name is `lambda` exactly when `lambda` occurs in the endpoint URL, and `execute-api` otherwise |
| `Dispatch.QueryUrl` | ping-service/ping_thing/main.py:116 | the outbound URL is the endpoint, then `?url=`, then the target exactly as given, with no escaping |
| `Dispatch.BuildRequest` | ping-service/ping_thing/main.py:74-128 | gcp requests carry exactly the headers `Accept: application/json` and `Authorization: Bearer <id token>`, and only gcp requests carry a Bearer token. Only aws requests are SigV4-signed, with scope (service name, task region). aws sends the target as an encoded `url` parameter with an `Accept` header. The others put it in the URL. azure and alicloud send no headers |
| `Dispatch.Label` | ping-service/ping_thing/main.py:97-128 | the provider literal of a record is its registry section name without the `faas.` prefix |
| `Dispatch.Tag` | ping-service/ping_thing/main.py:97-128 | a record names its task's provider (recoverable from the literal), its region key, and the probe's reply body as latency |
| `Dispatch.TagsIdentifyTasks` | ping-service/ping_thing/main.py:149-168 | the records of two different tasks of one plan differ in provider or region |
| `Dispatch.AuthSchemesByProvider` | ping-service/ping_thing/main.py:84-165 | of a plan's requests, the bearer-carrying ones are exactly those from the `faas.gcp` section and the signed ones exactly those from `faas.aws` |
| `Stream.CompletionOrderCovers` | ping-service/ping_thing/main.py:167 | a completion order names each of the n tasks once and nothing else |
| `Stream.FramingRoundTrip` | ping-service/ping_thing/main.py:168 | splitting the streamed body at newlines gives back the records, when no record holds a raw newline |
| `Stream.DrainedAll` | ping-service/ping_thing/main.py:167-168 | if every task replied, the records in completion order are a permutation of the tasks' records |
| `Stream.Drain` | ping-service/ping_thing/main.py:167-168 | records follow completion order, each one the encoded record of a task that replied. The stream fails iff some task raised, and stops at the first raise in completion order without a record for it. With no failure there is one record per task (`Stream.DrainedAll` makes it a permutation) |
| `Stream.FrameAppend` | ping-service/ping_thing/main.py:168 | each yield extends the body sent so far by one record and one newline, so the body is the records' yields in order |
| `Auth.GetUserToken` | ping-service/ping_thing/main.py:24-43 | admits iff a credential is present and the verifier accepts it, returning the verifier's claims. Otherwise 401: with `Bearer realm="auth_required"` and "Bearer authentication is needed" when the credential is missing, and with `Bearer error="invalid_token"` and the verifier's message when it is refused. Exactly one challenge header either way |
| `Auth.RejectionsDistinguishable` | ping-service/ping_thing/main.py:28-41 | the two 401s are told apart by their challenge header |
| `Service.Root` | ping-service/ping_thing/main.py:131-173 | a rejected caller gets the auth gate's 401, with its detail and `WWW-Authenticate` challenge, and no outbound request is made. An admitted caller gets a stream. If minting fails or a section is missing, the stream ends with that error and sends nothing. Otherwise every planned task's request is dispatched, and the records follow completion order, each that of a task that replied (`Stream.InCompletionOrder`). The stream fails with `TaskRaised` iff some task raised, and then it stopped at the first task in completion order that raised, with that task's exception (`Stream.StoppedAtRaise`). When no task raised, the records are a permutation of all tasks' records. The body is each record followed by one newline |
| `Locations.ListLocations` | faas/gcp.py:12-15 | the result never contains `me-central2`. Every other location keeps its number of occurrences. The length drops by the number of `me-central2` occurrences |
| `Locations.ListLocationsKeepsOrder` | faas/gcp.py:13-15 | the retained locations keep their relative order |
| `Locations.NoExcludedIsFixed` | faas/gcp.py:13-15 | a list without `me-central2` passes unchanged |
| `Locations.ListLocationsIdempotent` | faas/gcp.py:13-15 | filtering twice equals filtering once |
| `Locations.ListLocationsAppend` | faas/gcp.py:13-15 | filtering a concatenation concatenates the filtered parts |
| `Probe.SelectCloud` | app/src/main.rs:20-38 | one enabled cloud feature selects its cloud. None enabled selects `GCP`. Several enabled fail to build. `None` is never selected |
| `Probe.NoneNeverSelected` | app/src/main.rs:11-38 | no feature set yields `Cloud::None` |
| `Probe.Decimal` | app/src/main.rs:85 | Rust's `{}` rendering of a number is non-empty decimal digits with no leading zero, denoting that number |
| `Probe.ParseU16` | app/src/main.rs:42-45 | the checked digit loop accepts exactly an optional `+` followed by at least one digit with value at most 65535, and returns that value |
| `Probe.PortTextRoundTrip` | app/src/main.rs:42-55 | a port written in decimal, with or without `+`, parses back to itself; a number above 65535 is rejected |
| `Probe.Port` | app/src/main.rs:40-57 | AWS listens on 8080 and AliCloud on 9000, whatever the environment. `None` uses 3000 when `PORT` is unset. GCP (`PORT`) and Azure (`FUNCTIONS_CUSTOMHANDLER_PORT`) panic with "no port" when their variable is unset. A set variable that parses as u16 (`Probe.U16Text`) is listened on at the parsed value; one that does not parse panics with "bad port" |
| `Probe.DefaultBuildPort` | app/src/main.rs:32-45 | a build without cloud features panics with "no port" without `PORT`. It listens on the value a set `PORT` parses to, or panics with "bad port" when it does not parse as u16 (so `PORT=70000` panics). A canonical decimal n <= 65535 is listened on as n |
| `Probe.PortReadsOnlyItsVariable` | app/src/main.rs:40-57 | environments that agree on the cloud's port variable give the same port |
| `Probe.Route` | app/src/main.rs:75-77 | a URL starting with `tcp://` is a TCP probe of the rest, which is the URL minus its first six characters. Any other URL is an HTTP GET of the URL itself |
| `Probe.FetchUrl` | app/src/main.rs:74-95 | TCP: an address that fails to resolve or resolves to nothing gives `BadTcpAddr`. A failed connect to the first address gives `TcpConnFailed`. HTTP: an HTTP client failure gives `ReqwestError`, and any response status succeeds. A success reply is the elapsed milliseconds in canonical decimal: non-empty digits, no leading zero |

## Left out

- Loading the registry from the storage bucket (main.py:62-65) is not modelled. The registry is an input, and section values are assumed to be strings.
- The HTTP client's parsing and re-quoting of the URL string is not modelled. For gcp, azure and alicloud the target is pasted unescaped after `?url=` (main.py:104, 116, 125). The client then drops a `#...` fragment of the target, and an `&` in the target starts a new query parameter, so the probe's `url` parameter (app/src/main.rs:60-62) receives a truncated target. aws passes the target through encoded `params` (main.py:87, 95) and is unaffected.
- Minting the two identity tokens and the STS `assume_role_with_web_identity` exchange (main.py:132-147) are not modelled. Their result, or the error they raise, is an input to `Service.Root`.
- The headers botocore's `SigV4Auth.add_auth` writes into an aws request (main.py:89-91), namely `Authorization: AWS4-HMAC-SHA256 ...`, `X-Amz-Date` and `X-Amz-Security-Token`, are not computed: `Request.headers` lists only the headers the handler sets, and the `SigV4` signing scope stands for the rest. Computing an HMAC signature is out of scope.
- The identity provider's `verify_id_token` is a parameter. Parsing the `Authorization` header into a bearer credential is framework code: the credential arrives already extracted, or absent.
- Whether the challenge header that the gate sets on the injected response reaches the streamed response is framework behaviour and is not modelled.
- A missing `url` query parameter is rejected by framework validation and is not modelled.
- The SigV4 signature bytes are computed by botocore. The model records only the scope: credentials, service name and region.
- The encoding of the aws `url` parameter by the HTTP client is not modelled. The other providers' unescaped URL is modelled.
- Concurrency is not modelled: no asyncio tasks, no interleaving. Completion order is a permutation parameter, and each task's outcome (reply body or exception) is an input.
- When a later section is missing, `create_task` has already scheduled the earlier sections' tasks. The model counts nothing as dispatched in that case, because their results are never awaited.
- `model_dump_json` is a parameter `encode`. Round-trip framing assumes it writes no raw newline, as compact JSON escapes newlines.
- CORS middleware, the liveness and readiness routes, and the `StreamingResponse` transport are not modelled.
- The probe's `Instant` timing is not modelled: the elapsed milliseconds are an input, and `as_millis` (u128) is an unbounded natural.
- Name resolution, the 10-second TCP connect and reqwest are fields of `Probe.Network`.
- `env::var` failing on non-Unicode values is not modelled. Only an unset variable is.
- How warp turns a rejection into an HTTP response is not modelled, and neither are the server bind address and tokio.
- The Cloud Run location listing is an input. `list_locations` returns a lazy `filter` object, which its one caller iterates once; the model treats it as a list.
- The rest of `faas/gcp.py` (resource provisioning) and all of `faas/aws.py`, `faas/alicloud.py`, `__main__.py` and `vms/__init__.py` are provisioning code and are not modelled.
