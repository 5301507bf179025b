/** The per-provider request functions of the aggregator: the outbound GET
    each task issues (URL, query parameters, headers, signing scope) and the
    latency record it produces from the probe's reply. */
module Dispatch {
  import opened Outcomes
  import opened Registry
  import opened Planner
  import Text

  /** A header or query parameter: name and value. */
  type Field = (string, string)

  /** Temporary aws credentials returned by the STS exchange. */
  datatype Credentials = Credentials(accessKey: string, secretKey: string, sessionToken: string)

  /** How an outbound request is authenticated beyond its headers: not at
      all, or by an aws Signature Version 4 over the given service name and
      region (the signature headers themselves are computed by botocore). */
  datatype Signing = Unsigned | SigV4(credentials: Credentials, service: string, region: string)

  /** An outbound GET. `url` is the URL string the handler passes to the
      HTTP client; `params` are appended by the client, which encodes them. `headers` are the ones the handler
      sets itself: a SigV4-signed request is also sent with the
      `Authorization: AWS4-HMAC-SHA256 ...`, `X-Amz-Date` and
      `X-Amz-Security-Token` headers botocore adds when signing, which
      `signing` stands for and `headers` does not list. */
  datatype Request = Request(url: string, params: seq<Field>, headers: seq<Field>, signing: Signing)

  const Accept: Field := ("Accept", "application/json")

  /** Some header is an `Authorization` carrying a Bearer token. */
  predicate HasBearer(headers: seq<Field>)
  {
    exists i :: 0 <= i < |headers| && headers[i].0 == "Authorization" && Text.StartsWith(headers[i].1, "Bearer ")
  }

  /** The SigV4 service name of an aws endpoint: direct function URLs
      mention `lambda`, API-gateway URLs do not. */
  function ServiceName(endpoint: string): (service: string)
    ensures service == "lambda" <==> exists i :: Text.OccursAt(endpoint, "lambda", i)
    ensures service == "lambda" || service == "execute-api"
  {
    if Text.Contains(endpoint, "lambda") then "lambda" else "execute-api"
  }

  /** The URL gcp, azure and alicloud requests are sent to: the target is
      pasted after `?url=` without escaping. */
  function QueryUrl(endpoint: string, target: string): (url: string)
    ensures Text.StartsWith(url, endpoint + "?url=")
    ensures url[|endpoint| + 5..] == target
  {
    endpoint + "?url=" + target
  }

  /** The outbound request of task `t` probing `target`. */
  function BuildRequest(t: Task, target: string, idToken: string, creds: Credentials): (r: Request)
    ensures HasBearer(r.headers) <==> t.provider == Gcp
    ensures t.provider == Gcp ==> r.headers == [Accept, ("Authorization", "Bearer " + idToken)]
    ensures (t.provider == Azure || t.provider == AliCloud) ==> r.headers == []
    ensures r.signing.SigV4? <==> t.provider == Aws
    ensures r.signing.SigV4? ==> r.signing == SigV4(creds, ServiceName(t.endpoint), t.region)
    ensures t.provider == Aws ==> r.url == t.endpoint && r.params == [("url", target)] && r.headers == [Accept]
    ensures t.provider != Aws ==> r.params == [] && r.url == QueryUrl(t.endpoint, target)
  {
    match t.provider
    case Gcp =>
      var r := Request(QueryUrl(t.endpoint, target), [], [Accept, ("Authorization", "Bearer " + idToken)], Unsigned);
      assert r.headers[1].0 == "Authorization" && Text.StartsWith(r.headers[1].1, "Bearer ");
      r
    case Aws =>
      Request(t.endpoint, [("url", target)], [Accept], SigV4(creds, ServiceName(t.endpoint), t.region))
    case Azure =>
      Request(QueryUrl(t.endpoint, target), [], [], Unsigned)
    case AliCloud =>
      Request(QueryUrl(t.endpoint, target), [], [], Unsigned)
  }

  /** The record a request function returns. */
  datatype LatencyResponse = LatencyResponse(provider: string, region: string, latency: string)

  /** The provider literal a request function writes into its records; it is
      the registry section name without its `faas.` prefix. */
  function Label(p: Provider): (name: string)
    ensures Namespace(p) == "faas." + name
  {
    match p
    case Gcp => "gcp"
    case Aws => "aws"
    case Azure => "azure"
    case AliCloud => "alicloud"
  }

  /** The provider a record's label names, if any. */
  function ProviderOf(name: string): (p: Option<Provider>)
    ensures p.Some? ==> Label(p.value) == name
  {
    if name == "gcp" then Some(Gcp)
    else if name == "aws" then Some(Aws)
    else if name == "azure" then Some(Azure)
    else if name == "alicloud" then Some(AliCloud)
    else None
  }

  /** The label of a provider names that provider and no other. */
  lemma LabelRoundTrip(p: Provider)
    ensures ProviderOf(Label(p)) == Some(p)
  {
  }

  /** The record of task `t` whose probe replied with `body`. */
  function Tag(t: Task, body: string): (r: LatencyResponse)
    ensures ProviderOf(r.provider) == Some(t.provider)
    ensures r.region == t.region && r.latency == body
  {
    LatencyResponse(Label(t.provider), t.region, body)
  }

  /** The records of two different tasks of one plan differ in provider or
      region, so every record names the single endpoint it measured. */
  lemma TagsIdentifyTasks(urls: Urls, i: nat, j: nat, bi: string, bj: string)
    requires Plan(urls).Ok?
    requires i < j < |Plan(urls).value|
    ensures var ts := Plan(urls).value;
            (Tag(ts[i], bi).provider, Tag(ts[i], bi).region) != (Tag(ts[j], bj).provider, Tag(ts[j], bj).region)
  {
    var ts := Plan(urls).value;
    PlanEntriesDistinct(urls, i, j);
    LabelRoundTrip(ts[i].provider);
    LabelRoundTrip(ts[j].provider);
  }

  /** Of the requests a plan issues, the ones carrying a Bearer token are
      exactly the gcp ones, and the SigV4-signed ones exactly the aws ones. */
  lemma AuthSchemesByProvider(urls: Urls, target: string, idToken: string, creds: Credentials, i: nat)
    requires Plan(urls).Ok? && i < |Plan(urls).value|
    ensures var t := Plan(urls).value[i];
            var r := BuildRequest(t, target, idToken, creds);
            && (HasBearer(r.headers) <==> Namespace(t.provider) == "faas.gcp")
            && (r.signing.SigV4? <==> Namespace(t.provider) == "faas.aws")
            && t.region in AsMap(Section(urls, t.provider))
  {
    var t := Plan(urls).value[i];
    assert t in Plan(urls).value;
    NamespaceInjective(t.provider, Gcp);
    NamespaceInjective(t.provider, Aws);
  }
}
