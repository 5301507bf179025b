/** The per-region probe: which cloud it was built for, which port it
    listens on, and how it answers a `?url=` query by timing either a TCP
    connect or an HTTP GET. */
module Probe {
  import R = Outcomes
  import Text

  /** The cloud the probe binary is built for. */
  datatype Cloud = GCP | Azure | AliCloud | AWS | None

  /** The cargo features that each compile in one definition of `CLOUD`. */
  const CloudFeatures: set<string> := {"gcp", "azure", "aws", "alicloud"}

  /** The cloud a single enabled feature selects. */
  function CloudOf(feature: string): Cloud
  {
    match feature
    case "azure" => Azure
    case "alicloud" => AliCloud
    case "aws" => AWS
    case _ => GCP
  }

  /** More than one feature compiled in a definition of `CLOUD`. */
  datatype BuildError = DuplicateCloud

  /** The value of `CLOUD` for a set of enabled features: the cloud of the one
      enabled cloud feature, `GCP` when none is enabled, and a build error
      when several are. `None` is never selected. */
  function SelectCloud(features: set<string>): (r: R.Result<Cloud, BuildError>)
    ensures r.Ok? <==> |features * CloudFeatures| <= 1
    ensures features * CloudFeatures == {} ==> r == R.Ok(GCP)
    ensures forall f :: f in CloudFeatures && features * CloudFeatures == {f} ==> r == R.Ok(CloudOf(f))
    ensures r.Ok? ==> r.value != None
  {
    var enabled := features * CloudFeatures;
    if |enabled| > 1 then R.Err(DuplicateCloud)
    else
      SingletonMembers(enabled);
      if "azure" in enabled then R.Ok(Azure)
      else if "alicloud" in enabled then R.Ok(AliCloud)
      else if "gcp" in enabled then R.Ok(GCP)
      else if "aws" in enabled then R.Ok(AWS)
      else R.Ok(GCP)
  }

  lemma SingletonMembers(s: set<string>)
    requires |s| <= 1
    ensures forall a, b :: a in s && b in s ==> a == b
    ensures forall a :: a in s ==> s == {a}
  {
    forall a, b | a in s && b in s
      ensures a == b
    {
      assert |s - {a}| == |s| - 1 == 0;
      assert b in s - {a} || b == a;
    }
  }

  /** No feature combination builds the `None` cloud, so its fallback port
      is unreachable in a built probe. */
  lemma NoneNeverSelected(features: set<string>)
    ensures SelectCloud(features) != R.Ok(None)
  {
  }

  // ----- decimal text -----

  predicate IsDigit(c: char)
  {
    '0' <= c <= '9'
  }

  predicate AllDigits(s: string)
  {
    forall i :: 0 <= i < |s| ==> IsDigit(s[i])
  }

  function DigitValue(c: char): nat
    requires IsDigit(c)
  {
    c as int - '0' as int
  }

  function Digit(d: nat): (c: char)
    requires d < 10
    ensures IsDigit(c) && DigitValue(c) == d
  {
    ('0' as int + d) as char
  }

  /** The number a string of decimal digits denotes. */
  function Value(s: string): nat
    requires AllDigits(s)
  {
    if s == [] then 0 else 10 * Value(s[..|s| - 1]) + DigitValue(s[|s| - 1])
  }

  /** Rust's `{}` rendering of an unsigned integer: decimal digits, no sign,
      no leading zero except for zero itself; it reads back as `n`. */
  function Decimal(n: nat): (s: string)
    ensures s != [] && AllDigits(s) && Value(s) == n
    ensures s[0] == '0' ==> s == "0"
  {
    if n < 10 then [Digit(n)]
    else
      var hi := Decimal(n / 10);
      var s := hi + [Digit(n % 10)];
      assert s[..|s| - 1] == hi;
      s
  }

  lemma {:induction false} ValuePrefix(s: string, k: nat)
    requires AllDigits(s) && k <= |s|
    ensures AllDigits(s[..k]) && Value(s[..k]) <= Value(s)
    decreases |s| - k
  {
    if k == |s| {
      assert s[..k] == s;
    } else {
      var t := s[..|s| - 1];
      assert AllDigits(t);
      assert t[..k] == s[..k];
      ValuePrefix(t, k);
    }
  }

  // ----- u16 parsing -----

  const U16Max: nat := 65535

  /** What `str::parse::<u16>` accepts: an optional `+` followed by at
      least one decimal digit (leading zeros allowed), denoting at most
      65535. A lone sign, a `-`, blanks or an empty string are rejected. */
  function U16Text(s: string): R.Option<nat>
  {
    var digits := if |s| > 1 && s[0] == '+' then s[1..] else s;
    if digits != [] && AllDigits(digits) && Value(digits) <= U16Max then R.Some(Value(digits)) else R.None
  }

  /** The standard library's digit loop for `u16`: sign handling first,
      then digit by digit with checked multiply and checked add. */
  method ParseU16(s: string) returns (r: R.Option<nat>)
    ensures r == U16Text(s)
    ensures r.Some? ==> r.value <= U16Max
  {
    if s == [] {
      return R.None;
    }
    if (s[0] == '+' || s[0] == '-') && |s| == 1 {
      return R.None;
    }
    var digits := if s[0] == '+' then s[1..] else s;
    var acc: nat := 0;
    var i := 0;
    while i < |digits|
      invariant 0 <= i <= |digits|
      invariant AllDigits(digits[..i]) && acc == Value(digits[..i]) && acc <= U16Max
    {
      var c := digits[i];
      if !IsDigit(c) {
        return R.None;
      }
      assert digits[..i + 1][..i] == digits[..i];
      if acc * 10 > U16Max || acc * 10 + DigitValue(c) > U16Max {
        if AllDigits(digits) {
          ValuePrefix(digits, i + 1);
        }
        return R.None;
      }
      acc := acc * 10 + DigitValue(c);
      i := i + 1;
    }
    assert digits[..i] == digits;
    r := R.Some(acc);
  }

  /** A port written the way Rust renders numbers parses back to itself,
      with or without a leading `+`; a larger number is rejected. */
  lemma PortTextRoundTrip(n: nat)
    ensures n <= U16Max ==> U16Text(Decimal(n)) == R.Some(n) && U16Text("+" + Decimal(n)) == R.Some(n)
    ensures n > U16Max ==> U16Text(Decimal(n)) == R.None
  {
    var s := Decimal(n);
    assert ("+" + s)[1..] == s;
    assert IsDigit(s[0]);
  }

  // ----- port -----

  /** How `port()` ends: a port to listen on, or a panic. `message` is the
      text given to `expect`; Rust's panic message appends the error's
      debug form to it (`no port: NotPresent`, `bad port: ParseIntError { .. }`). */
  datatype PortOutcome = Listen(port: nat) | Panic(message: string)

  /** The environment variable a cloud reads its port from, if any. */
  function PortVariable(cloud: Cloud): R.Option<string>
  {
    match cloud
    case GCP => R.Some("PORT")
    case Azure => R.Some("FUNCTIONS_CUSTOMHANDLER_PORT")
    case None => R.Some("PORT")
    case AWS => R.None
    case AliCloud => R.None
  }

  /** `.parse().expect("bad port")` on an environment value. */
  function ParsedPort(text: string): PortOutcome
  {
    match U16Text(text)
    case Some(n) => Listen(n)
    case None => Panic("bad port")
  }

  /** The port the probe listens on, given the process environment. */
  function Port(cloud: Cloud, env: map<string, string>): (r: PortOutcome)
    ensures r.Listen? ==> r.port <= U16Max
    ensures cloud == AWS ==> r == Listen(8080)
    ensures cloud == AliCloud ==> r == Listen(9000)
    ensures cloud == None && "PORT" !in env ==> r == Listen(3000)
    ensures (cloud == GCP || cloud == Azure) && PortVariable(cloud).value !in env ==> r == Panic("no port")
    ensures PortVariable(cloud).Some? && PortVariable(cloud).value in env ==>
              var text := env[PortVariable(cloud).value];
              && (U16Text(text).Some? ==> r == Listen(U16Text(text).value))
              && (U16Text(text).None? ==> r == Panic("bad port"))
    ensures r.Panic? ==> r.message == "no port" || r.message == "bad port"
  {
    match cloud
    case GCP => if "PORT" in env then ParsedPort(env["PORT"]) else Panic("no port")
    case Azure =>
      if "FUNCTIONS_CUSTOMHANDLER_PORT" in env then ParsedPort(env["FUNCTIONS_CUSTOMHANDLER_PORT"])
      else Panic("no port")
    case AWS => Listen(8080)
    case AliCloud => Listen(9000)
    case None => if "PORT" in env then ParsedPort(env["PORT"]) else Listen(3000)
  }

  /** A probe built without a cloud feature listens on the port `PORT`
      parses to, panics with "bad port" when it does not parse, and panics
      with "no port" when it is unset: the 3000 fallback never applies. A
      port written as Rust renders it is listened on as that number. */
  lemma DefaultBuildPort(env: map<string, string>, n: nat)
    requires n <= U16Max
    ensures SelectCloud({}).Ok?
    ensures "PORT" !in env ==> Port(SelectCloud({}).value, env) == Panic("no port")
    ensures "PORT" in env && U16Text(env["PORT"]).Some? ==>
              Port(SelectCloud({}).value, env) == Listen(U16Text(env["PORT"]).value)
    ensures "PORT" in env && U16Text(env["PORT"]).None? ==>
              Port(SelectCloud({}).value, env) == Panic("bad port")
    ensures "PORT" in env && env["PORT"] == Decimal(n) ==> Port(SelectCloud({}).value, env) == Listen(n)
  {
    PortTextRoundTrip(n);
  }

  /** Only the variable a cloud reads matters to its port. */
  lemma PortReadsOnlyItsVariable(cloud: Cloud, env1: map<string, string>, env2: map<string, string>)
    requires forall v :: PortVariable(cloud) == R.Some(v) ==> (v in env1 <==> v in env2) && (v in env1 ==> env1[v] == env2[v])
    ensures Port(cloud, env1) == Port(cloud, env2)
  {
  }

  // ----- fetch_url -----

  const TcpScheme: string := "tcp://"

  /** Where a query's URL sends the probe: a TCP connect to the address
      after `tcp://`, or an HTTP GET of the URL itself. */
  datatype Target = Tcp(addr: string) | Http(url: string)

  function Route(url: string): (t: Target)
    ensures t.Tcp? <==> Text.StartsWith(url, TcpScheme)
    ensures t.Tcp? ==> TcpScheme + t.addr == url
    ensures t.Http? ==> t.url == url
  {
    if Text.StartsWith(url, TcpScheme) then
      assert url == url[..6] + url[6..];
      Tcp(url[6..])
    else Http(url)
  }

  /** An address `to_socket_addrs` resolved to. */
  datatype SocketAddr = SocketAddr(ip: seq<nat>, port: nat)

  /** The probe's errors, as it reports them. */
  datatype FetchError = ReqwestError(reason: string) | BadTcpAddr | TcpConnFailed

  /** The outside world a query touches: name resolution, the TCP connect
      (with its 10-second timeout) and the HTTP client, which reports the
      response status or an error. */
  datatype Network = Network(
    resolve: string -> R.Result<seq<SocketAddr>, string>,
    connect: SocketAddr -> R.Result<(), string>,
    get: string -> R.Result<nat, string>)

  /** Answers one query: times the connection the URL asks for and replies
      with the elapsed milliseconds in decimal. A TCP address that does not
      resolve, or resolves to nothing, is `BadTcpAddr`; a failed connect to
      the first resolved address is `TcpConnFailed`; an HTTP client failure
      is `ReqwestError`; any HTTP status counts as success. */
  function FetchUrl(url: string, net: Network, elapsedMs: nat): (r: R.Result<string, FetchError>)
    ensures Route(url).Tcp? ==>
              var resolved := net.resolve(Route(url).addr);
              && (r == R.Err(BadTcpAddr) <==> resolved.Err? || resolved.value == [])
              && (r == R.Err(TcpConnFailed) <==> resolved.Ok? && resolved.value != [] && net.connect(resolved.value[0]).Err?)
              && !(r.Err? && r.error.ReqwestError?)
    ensures Route(url).Http? ==>
              && (r.Ok? <==> net.get(url).Ok?)
              && (r.Err? ==> r.error == ReqwestError(net.get(url).error))
    ensures r.Ok? ==> r.value != [] && AllDigits(r.value) && Value(r.value) == elapsedMs
    ensures r.Ok? && r.value[0] == '0' ==> r.value == "0"
  {
    match Route(url)
    case Tcp(addr) =>
      (match net.resolve(addr)
       case Err(_) => R.Err(BadTcpAddr)
       case Ok(addrs) =>
         if addrs == [] then R.Err(BadTcpAddr)
         else if net.connect(addrs[0]).Err? then R.Err(TcpConnFailed)
         else R.Ok(Decimal(elapsedMs)))
    case Http(u) =>
      match net.get(u)
      case Err(e) => R.Err(ReqwestError(e))
      case Ok(_) => R.Ok(Decimal(elapsedMs))
  }
}
