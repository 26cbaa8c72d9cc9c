/**
 * lib/insight.js: the Insight client. Each operation checks its arguments,
 * forms exactly one HTTP request, and hands the transport's reply to a
 * callback that chooses between an error value and a result. The transport
 * is not modelled: an operation yields the request it would send, and each
 * callback is a function of the reply the transport produced.
 */
module InsightClient {
  import opened Wrappers
  import opened Decimal
  import opened Js
  import opened LitecoreTypes
  import opened Litecore
  import opened AddressInfoModel

  const LivenetUrl: string := "https://insight.litecore.io"
  const TestnetUrl: string := "https://testnet.litecore.io"

  /** The public Insight server the client picks for a named network. */
  function PublicUrl(n: Network): string {
    if n == Livenet then LivenetUrl else TestnetUrl
  }

  /** The two fields the constructor fixes. */
  datatype Config = Config(url: Value, network: Network)

  /**
   * The configuration `new Insight(url, network)` settles on: the default
   * network's server when both arguments are falsy; the public server of the
   * network the first argument names; otherwise the URL as given with the
   * network the second argument names, or the default network.
   */
  function Configure(env: Env, url: Value, network: Value): Config {
    if !Truthy(url) && !Truthy(network) then
      Config(Str(PublicUrl(env.defaultNetwork)), env.defaultNetwork)
    else match LookupNetwork(env, url)
      case Some(n) => Config(Str(PublicUrl(n)), n)
      case None => Config(url, LookupNetwork(env, network).GetOr(env.defaultNetwork))
  }

  lemma DefaultClient(env: Env, url: Value, network: Value)
    requires !Truthy(url) && !Truthy(network)
    ensures Configure(env, url, network) == Config(Str(PublicUrl(env.defaultNetwork)), env.defaultNetwork)
  {
  }

  /** A first argument that names a network fixes both fields; the second argument is ignored. */
  lemma NamedNetworkClient(env: Env, url: Value, network: Value, other: Value)
    requires Truthy(url) && LookupNetwork(env, url).Some?
    ensures var n := LookupNetwork(env, url).value;
      && Configure(env, url, network) == Config(Str(PublicUrl(n)), n)
      && Configure(env, url, network) == Configure(env, url, other)
    ensures LookupNetwork(env, url) == Some(Livenet) ==> Configure(env, url, network).url == Str("https://insight.litecore.io")
    ensures LookupNetwork(env, url) != Some(Livenet) ==> Configure(env, url, network).url == Str("https://testnet.litecore.io")
  {
  }

  /** Any other first argument is kept verbatim as the URL. */
  lemma ExplicitUrlClient(env: Env, url: Value, network: Value)
    requires Truthy(url) || Truthy(network)
    requires LookupNetwork(env, url).None?
    ensures Configure(env, url, network).url == url
    ensures LookupNetwork(env, network).Some? ==> Configure(env, url, network).network == LookupNetwork(env, network).value
    ensures LookupNetwork(env, network).None? ==> Configure(env, url, network).network == env.defaultNetwork
  {
  }

  /** An HTTP request as handed to the `request` library. */
  datatype Request = GetRequest(url: string) | PostRequest(url: string, json: Value)

  /** The call `getUtxos` makes: the request, the parsed addresses, and the captured `minconf`. */
  datatype UtxoCall = UtxoCall(request: Request, addresses: seq<Address>, minconf: Value)

  /** `$.checkArgument(_.isString(id)); $.checkArgument(id.length === 64)`. */
  function CheckId(id: Value): (r: Result<string, Error>)
    ensures r.Success? <==> id.Str? && |id.s| == 64
    ensures r.Success? ==> r.value == id.s
    ensures r.Failure? ==> r.error == InvalidArgument
  {
    if id.Str? && |id.s| == 64 then Success(id.s) else Failure(InvalidArgument)
  }

  /** Only the length is checked: sixty-four non-hex characters pass. */
  lemma IdHexNotChecked()
    ensures CheckId(Str(seq(64, _ => 'z'))) == Success(seq(64, _ => 'z'))
  {
  }

  /** The address argument of `address(params)`: `params.address` when defined, else `params`. */
  function AddressArgument(params: Value): Value {
    if FieldOf(params, "address") != Undefined then FieldOf(params, "address") else params
  }

  /** The address arguments of `getUtxos(params)`, before `new Address` is applied. */
  function UtxoAddressArguments(params: Value): seq<Value> {
    var chosen :=
      if FieldOf(params, "addresses") != Undefined || FieldOf(params, "address") != Undefined
      then Or(FieldOf(params, "addresses"), FieldOf(params, "address"))
      else params;
    if chosen.Arr? then chosen.elems else [chosen]
  }

  /** The `minconf` that `getUtxos(params)` filters with. */
  function MinConf(params: Value): Value {
    if FieldOf(params, "minconf") != Undefined then FieldOf(params, "minconf") else Num(0)
  }

  /** `address.toString()` of each address, in order. */
  function Texts(addresses: seq<Address>): (texts: seq<string>)
    ensures |texts| == |addresses|
    ensures forall i :: 0 <= i < |addresses| ==> texts[i] == addresses[i].text
  {
    seq(|addresses|, i requires 0 <= i < |addresses| => addresses[i].text)
  }

  /** The `addrs` field lists the addresses in order and splits back into them. */
  lemma AddrsRoundTrip(addresses: seq<Address>)
    requires forall i :: 0 <= i < |addresses| ==> ',' !in addresses[i].text
    ensures addresses == [] ==> Join(Texts(addresses)) == ""
    ensures addresses != [] ==> Split(Join(Texts(addresses))) == Texts(addresses)
  {
    if addresses != [] {
      SplitJoin(Texts(addresses));
    }
  }

  /** `params.from` is sent when it is a number and at least 0. */
  function FromBound(from: Value): Option<nat> {
    if from.Num? && from.n >= 0 then Some(from.n) else None
  }

  /** `params.to` is sent when it is a number and greater than 0. */
  function ToBound(to: Value): Option<nat> {
    if to.Num? && to.n > 0 then Some(to.n) else None
  }

  /** A block range as a query string carries it. */
  datatype Range = Range(from: Option<nat>, to: Option<nat>)

  /** Length of the longest all-digit prefix of `s`. */
  function DigitSpan(s: string): (n: nat)
    ensures n <= |s| && AllDigits(s[..n])
    ensures n < |s| ==> !IsDigit(s[n])
  {
    if s == [] || !IsDigit(s[0]) then 0
    else
      var n := 1 + DigitSpan(s[1..]);
      assert s[..n] == [s[0]] + s[1..][..n - 1];
      n
  }

  /** Reads an optional `<head><digits>` (`head` is `&from=` or `&to=`) at the front of `s`, giving the number and what follows. */
  function ReadParam(s: string, head: string): (Option<nat>, string) {
    if |head| <= |s| && s[..|head|] == head && DigitSpan(s[|head|..]) > 0 then
      var tail := s[|head|..];
      var n := DigitSpan(tail);
      (Some(ParseNat(tail[..n])), tail[n..])
    else (None, s)
  }

  /**
   * How a server reads the query string of an address request: empty, or `?`
   * followed by an optional `&from=<n>` and an optional `&to=<m>`, at least one
   * of them present and nothing else.
   */
  function ParseQuery(q: string): Option<Range> {
    if q == "" then Some(Range(None, None))
    else if q[0] != '?' then None
    else
      var (from, rest) := ReadParam(q[1..], "&from=");
      var (to, rest') := ReadParam(rest, "&to=");
      if rest' == "" && (from.Some? || to.Some?) then Some(Range(from, to)) else None
  }

  lemma {:induction false} DigitSpanOf(d: string, rest: string)
    requires AllDigits(d)
    requires rest == [] || !IsDigit(rest[0])
    ensures DigitSpan(d + rest) == |d|
    decreases |d|
  {
    if d != [] {
      assert (d + rest)[1..] == d[1..] + rest;
      DigitSpanOf(d[1..], rest);
    }
  }

  lemma ReadParamOf(head: string, n: nat, rest: string)
    requires rest == [] || rest[0] == '&'
    ensures ReadParam(head + NatToString(n) + rest, head) == (Some(n), rest)
  {
    var d := NatToString(n);
    var s := head + d + rest;
    assert s[..|head|] == head;
    assert s[|head|..] == d + rest;
    DigitSpanOf(d, rest);
    assert (d + rest)[..|d|] == d;
    assert (d + rest)[|d|..] == rest;
    ParseNatToString(n);
  }

  lemma ReadParamMissing(s: string, head: string)
    requires s == [] || (|s| >= 2 && |head| >= 2 && s[1] != head[1])
    ensures ReadParam(s, head) == (None, s)
  {
    if s != [] && |head| <= |s| {
      assert s[..|head|][1] == s[1];
    }
  }

  /** `err || res` (PassResponse) or `err || body` (PassBody): what a failed call hands the callback. */
  datatype ErrorArgument = PassResponse | PassBody

  /** The transport's error when the request itself failed. */
  datatype TransportFailure = TransportFailure(message: string)

  /** What the transport passes to a response callback: `(err)` or `(null, res, body)`. */
  datatype Reply = TransportError(failure: TransportFailure) | Received(statusCode: int, body: Value)

  /** The error argument a callback receives. */
  datatype Fault =
    | Transport(failure: TransportFailure)
    | ResponseObject(statusCode: int, body: Value)
    | ResponseBody(body: Value)
    | Raised(error: Error)

  /**
   * How a response callback ends: `callback(fault)`, `callback(null, result)`,
   * or an exception escaping the callback so that the caller's callback is never
   * called.
   */
  datatype Completion<+T> = Fails(fault: Fault) | Delivers(result: T) | Throws(error: Error)

  /** `if (err || res.statusCode !== 200) return callback(err || res)` and its `body` twin. */
  function Rejection(reply: Reply, shape: ErrorArgument): (f: Option<Fault>)
    ensures f.None? <==> reply.Received? && reply.statusCode == 200
    ensures reply.TransportError? ==> f == Some(Transport(reply.failure))
    ensures reply.Received? && reply.statusCode != 200 && shape == PassResponse ==>
      f == Some(ResponseObject(reply.statusCode, reply.body))
    ensures reply.Received? && reply.statusCode != 200 && shape == PassBody ==>
      f == Some(ResponseBody(reply.body))
  {
    match reply
    case TransportError(failure) => Some(Transport(failure))
    case Received(code, body) =>
      if code == 200 then None
      else if shape == PassResponse then Some(ResponseObject(code, body))
      else Some(ResponseBody(body))
  }

  /**
   * The Insight client. `defineImmutable` fixes `url` and `network`, so they are
   * constants; `env` holds the litecore collaborators the client calls.
   */
  class Insight {
    const env: Env
    const url: Value
    const network: Network

    constructor (env: Env, url: Value, network: Value)
      ensures this.env == env
      ensures Config(this.url, this.network) == Configure(env, url, network)
    {
      var u, n := url, network;
      if !Truthy(u) && !Truthy(n) {
        // `return new Insight(Networks.defaultNetwork)`
        u, n := Net(env.defaultNetwork), Undefined;
      }
      var named := LookupNetwork(env, u);
      if named.Some? {
        n := Net(named.value);
        if named.value == Livenet {
          u := Str(LivenetUrl);
        } else {
          u := Str(TestnetUrl);
        }
      }
      this.env := env;
      this.url := u;
      this.network := LookupNetwork(env, n).GetOr(env.defaultNetwork);
    }

    /** `this.url + path`. */
    function Endpoint(path: string): (e: string)
      ensures |e| == |ToString(url)| + |path|
      ensures e[..|ToString(url)|] == ToString(url) && e[|ToString(url)|..] == path
    {
      ToString(url) + path
    }

    /** `requestGet(path)`: a GET of the server URL followed by `path`. */
    function RequestGet(path: string): (r: Request)
      ensures r.GetRequest? && r.url == Endpoint(path)
    {
      GetRequest(Endpoint(path))
    }

    /** `requestPost(path, data)`: a POST of `data` as JSON to the server URL followed by `path`. */
    function RequestPost(path: string, data: Value): (r: Request)
      ensures r.PostRequest? && r.url == Endpoint(path) && r.json == data
    {
      PostRequest(Endpoint(path), data)
    }

    /** `getTransaction(txid)`: accepts exactly the 64-character strings. */
    function GetTransaction(txid: Value): (r: Result<Request, Error>)
      ensures r.Success? <==> txid.Str? && |txid.s| == 64
      ensures r.Failure? ==> r.error == InvalidArgument
      ensures r.Success? ==> r.value == RequestGet("/api/tx/" + txid.s)
    {
      var id :- CheckId(txid);
      Success(RequestGet("/api/tx/" + id))
    }

    /** `getBlock(blockhash)`: accepts exactly the 64-character strings. */
    function GetBlock(blockhash: Value): (r: Result<Request, Error>)
      ensures r.Success? <==> blockhash.Str? && |blockhash.s| == 64
      ensures r.Failure? ==> r.error == InvalidArgument
      ensures r.Success? ==> r.value == RequestGet("/api/block/" + blockhash.s)
    {
      var hash :- CheckId(blockhash);
      Success(RequestGet("/api/block/" + hash))
    }

    /** `getBlocks()`. */
    function GetBlocks(): (r: Request)
      ensures r == GetRequest(ToString(url) + "/api/blocks/")
    {
      RequestGet("/api/blocks/")
    }

    /**
     * `broadcast(transaction)`: a hex string is sent as it is, a transaction
     * object is serialized first (its refusal escapes), anything else is an
     * argument error.
     */
    function Broadcast(transaction: Value): (r: Result<Request, Error>)
      ensures !env.isHexa(transaction) && !transaction.Tx? ==> r == Failure(InvalidArgument)
      ensures !transaction.Tx? && env.isHexa(transaction) ==> r.Success?
      ensures transaction.Tx? ==> (r.Success? <==> env.serialize(transaction.tx).Success?)
      ensures transaction.Tx? && r.Failure? ==> env.serialize(transaction.tx) == Failure(r.error)
      ensures r.Success? ==>
        && r.value.PostRequest? && r.value.url == ToString(url) + "/api/tx/send"
        && r.value.json == Obj(map["rawtx" := if transaction.Tx? then Str(env.serialize(transaction.tx).value) else transaction])
    {
      if !env.isHexa(transaction) && !transaction.Tx? then Failure(InvalidArgument)
      else
        var rawtx :- if transaction.Tx? then (var hex :- env.serialize(transaction.tx); Success(Str(hex))) else Success(transaction);
        Success(RequestPost("/api/tx/send", Obj(map["rawtx" := rawtx])))
    }

    /**
     * `address(params)`: parses the address, then appends `&from=` and `&to=`
     * for the bounds that qualify and prefixes `?` when anything was appended.
     */
    method GetAddress(params: Value) returns (r: Result<Request, Error>)
      ensures IsNullish(params) ==> r == Failure(TypeError)
      ensures !IsNullish(params) ==> (r.Success? <==> env.newAddress(AddressArgument(params)).Success?)
      ensures !IsNullish(params) && r.Failure? ==> env.newAddress(AddressArgument(params)) == Failure(r.error)
      ensures r.Success? ==>
        var base := ToString(url) + "/api/addr/" + env.newAddress(AddressArgument(params)).value.text;
        var range := Range(FromBound(FieldOf(params, "from")), ToBound(FieldOf(params, "to")));
        && r.value.GetRequest? && |base| <= |r.value.url| && r.value.url[..|base|] == base
        && ParseQuery(r.value.url[|base|..]) == Some(range)
        && (range == Range(None, None) <==> r.value.url == base)
    {
      if IsNullish(params) {
        // `params.address` on undefined or null
        return Failure(TypeError);
      }
      var parsed: Result<Address, Error>;
      if FieldOf(params, "address") != Undefined {
        parsed := env.newAddress(FieldOf(params, "address"));
      } else {
        parsed := env.newAddress(params);
      }
      if parsed.Failure? {
        return Failure(parsed.error);
      }
      var address := parsed.value;
      var queryString := QueryString(FieldOf(params, "from"), FieldOf(params, "to"));
      var base := ToString(url) + "/api/addr/" + address.text;
      assert ToString(url) + ("/api/addr/" + address.text + queryString) == base + queryString;
      r := Success(RequestGet("/api/addr/" + address.text + queryString));
      assert r.value.url[..|base|] == base && r.value.url[|base|..] == queryString;
    }

    /**
     * The query string of `address(params)`, built by successive appends from
     * `params.from` and `params.to`.
     */
    static method QueryString(from: Value, to: Value) returns (queryString: string)
      ensures queryString == "" <==> FromBound(from).None? && ToBound(to).None?
      ensures ParseQuery(queryString) == Some(Range(FromBound(from), ToBound(to)))
    {
      queryString := "";
      if from != Undefined && from.Num? && from.n >= 0 {
        queryString := queryString + "&from=" + ToString(from);
      }
      ghost var fromPart := queryString;
      if to != Undefined && to.Num? && to.n > 0 {
        queryString := queryString + "&to=" + ToString(to);
      }
      ghost var toPart := if ToBound(to).Some? then "&to=" + NatToString(to.n) else "";
      assert queryString == fromPart + toPart;
      QueryStringReadsBack(FromBound(from), ToBound(to), fromPart, toPart);
      if queryString != "" {
        queryString := "?" + queryString;
      }
    }

    /**
     * `getUtxos(params)`: resolves the address list, defaults `minconf` to 0,
     * parses every address, and posts their comma-joined string forms.
     */
    method GetUtxos(params: Value) returns (r: Result<UtxoCall, Error>)
      ensures IsNullish(params) ==> r == Failure(TypeError)
      ensures !IsNullish(params) ==>
        (r.Success? <==> forall i :: 0 <= i < |UtxoAddressArguments(params)| ==>
                           env.newAddress(UtxoAddressArguments(params)[i]).Success?)
      ensures r.Success? ==>
        var args := UtxoAddressArguments(params);
        && r.value.minconf == MinConf(params)
        && |r.value.addresses| == |args|
        && (forall i :: 0 <= i < |args| ==> env.newAddress(args[i]) == Success(r.value.addresses[i]))
        && r.value.request == PostRequest(ToString(url) + "/api/addrs/utxo", Obj(map["addrs" := Str(Join(Texts(r.value.addresses)))]))
      ensures !IsNullish(params) && r.Failure? ==> MapThrowing(env.newAddress, UtxoAddressArguments(params)) == Failure(r.error)
    {
      if IsNullish(params) {
        // `params.addresses` on undefined or null
        return Failure(TypeError);
      }
      var addresses: Value, minconf: Value;
      if FieldOf(params, "addresses") != Undefined || FieldOf(params, "address") != Undefined {
        addresses := Or(FieldOf(params, "addresses"), FieldOf(params, "address"));
      } else {
        addresses := params;
      }
      if FieldOf(params, "minconf") != Undefined {
        minconf := FieldOf(params, "minconf");
      } else {
        minconf := Num(0);
      }
      if !addresses.Arr? {
        addresses := Arr([addresses]);
      }
      assert addresses.elems == UtxoAddressArguments(params);
      var parsed := MapThrowing(env.newAddress, addresses.elems);
      if parsed.Failure? {
        return Failure(parsed.error);
      }
      var request := RequestPost("/api/addrs/utxo", Obj(map["addrs" := Str(Join(Texts(parsed.value)))]));
      r := Success(UtxoCall(request, parsed.value, minconf));
    }
  }

  /** The query string `address` builds reads back as exactly the bounds that qualified. */
  lemma QueryStringReadsBack(f: Option<nat>, t: Option<nat>, fromPart: string, toPart: string)
    requires fromPart == if f.Some? then "&from=" + NatToString(f.value) else ""
    requires toPart == if t.Some? then "&to=" + NatToString(t.value) else ""
    ensures fromPart + toPart == "" <==> f.None? && t.None?
    ensures ParseQuery(if fromPart + toPart == "" then "" else "?" + (fromPart + toPart)) == Some(Range(f, t))
  {
    var body := fromPart + toPart;
    if body != "" {
      assert ("?" + body)[1..] == body;
      if t.Some? {
        ReadParamOf("&to=", t.value, "");
        assert toPart == "&to=" + NatToString(t.value) + "";
      } else {
        ReadParamMissing(toPart, "&to=");
      }
      if f.Some? {
        ReadParamOf("&from=", f.value, toPart);
      } else {
        assert body == toPart;
        ReadParamMissing(toPart, "&from=");
      }
    }
  }

  /** `task.confirmations >= minconf`, when both are numbers. */
  predicate Confirmed(task: Value, minconf: Value) {
    FieldOf(task, "confirmations").Num? && minconf.Num? && FieldOf(task, "confirmations").n >= minconf.n
  }

  /** How many records of `tasks` are confirmed enough. */
  function CountConfirmed(tasks: seq<Value>, minconf: Value): nat {
    if tasks == [] then 0
    else (if Confirmed(tasks[0], minconf) then 1 else 0) + CountConfirmed(tasks[1..], minconf)
  }

  /** `r` is `s` with some elements left out, the rest in their order. */
  predicate IsSubsequence(r: seq<Value>, s: seq<Value>)
    decreases |s|
  {
    r == [] || (s != [] && ((r[0] == s[0] && IsSubsequence(r[1..], s[1..])) || IsSubsequence(r, s[1..])))
  }

  /**
   * `unspent.filter((task) => task.confirmations >= minconf)`: the confirmed
   * records, in the server's order, and only them.
   */
  function KeepConfirmed(tasks: seq<Value>, minconf: Value): (kept: seq<Value>)
    ensures |kept| <= |tasks|
    ensures forall i :: 0 <= i < |kept| ==> Confirmed(kept[i], minconf)
    ensures |kept| == CountConfirmed(tasks, minconf)
    ensures IsSubsequence(kept, tasks)
  {
    if tasks == [] then []
    else
      var rest := KeepConfirmed(tasks[1..], minconf);
      if Confirmed(tasks[0], minconf) then
        assert ([tasks[0]] + rest)[1..] == rest;
        [tasks[0]] + rest
      else
        assert rest == [] || IsSubsequence(rest, tasks[1..]);
        rest
  }

  lemma {:induction false} ConfirmedSubsequenceBound(r: seq<Value>, tasks: seq<Value>, minconf: Value)
    requires IsSubsequence(r, tasks)
    requires forall i :: 0 <= i < |r| ==> Confirmed(r[i], minconf)
    ensures |r| <= CountConfirmed(tasks, minconf)
    decreases |tasks|
  {
    if r != [] {
      if r[0] == tasks[0] && IsSubsequence(r[1..], tasks[1..]) {
        ConfirmedSubsequenceBound(r[1..], tasks[1..], minconf);
      } else {
        ConfirmedSubsequenceBound(r, tasks[1..], minconf);
      }
    }
  }

  /**
   * The filter's result is the only subsequence of the server's records that
   * holds only confirmed records and as many as there are.
   */
  lemma {:induction false} KeepConfirmedIsUnique(r: seq<Value>, tasks: seq<Value>, minconf: Value)
    requires IsSubsequence(r, tasks)
    requires forall i :: 0 <= i < |r| ==> Confirmed(r[i], minconf)
    requires |r| == CountConfirmed(tasks, minconf)
    ensures r == KeepConfirmed(tasks, minconf)
    decreases |tasks|
  {
    if tasks != [] {
      var rest := tasks[1..];
      if r != [] && r[0] == tasks[0] && IsSubsequence(r[1..], rest) {
        KeepConfirmedIsUnique(r[1..], rest, minconf);
        assert r == [r[0]] + r[1..];
      } else if r == [] {
        assert CountConfirmed(rest, minconf) == 0 && !Confirmed(tasks[0], minconf);
        KeepConfirmedIsUnique(r, rest, minconf);
      } else {
        ConfirmedSubsequenceBound(r, rest, minconf);
        KeepConfirmedIsUnique(r, rest, minconf);
      }
    }
  }

  /** With the default `minconf` of 0, records without a numeric `confirmations` are dropped. */
  lemma DefaultMinConfNeedsNumericConfirmations(tasks: seq<Value>)
    ensures forall i :: 0 <= i < |KeepConfirmed(tasks, Num(0))| ==>
      FieldOf(KeepConfirmed(tasks, Num(0))[i], "confirmations").Num?
  {
  }

  /** The sample: confirmations 0, 1, 2, 3 and minconf 2 keep the last two records. */
  lemma KeepConfirmedSample(a: Value, b: Value, c: Value, d: Value)
    requires a == Obj(map["confirmations" := Num(0)]) && b == Obj(map["confirmations" := Num(1)])
    requires c == Obj(map["confirmations" := Num(2)]) && d == Obj(map["confirmations" := Num(3)])
    ensures KeepConfirmed([a, b, c, d], Num(2)) == [c, d]
  {
    assert !Confirmed(a, Num(2)) && !Confirmed(b, Num(2)) && Confirmed(c, Num(2)) && Confirmed(d, Num(2));
    assert [d][1..] == [];
    assert KeepConfirmed([d], Num(2)) == [d];
    assert [c, d][1..] == [d];
    assert KeepConfirmed([c, d], Num(2)) == [c, d];
    assert [b, c, d][1..] == [c, d];
    assert KeepConfirmed([b, c, d], Num(2)) == [c, d];
    assert [a, b, c, d][1..] == [b, c, d];
  }

  /**
   * The body of the `getUtxos` callback after the status check: filtering a
   * body that is not an array, or reading `confirmations` of an undefined or
   * null record, throws a TypeError; otherwise the kept records are mapped
   * through `UnspentOutput`.
   */
  function UnspentOutputs(env: Env, unspent: Value, minconf: Value): (r: Result<seq<UnspentOutput>, Error>)
    ensures !unspent.Arr? ==> r == Failure(TypeError)
    ensures unspent.Arr? && (exists i :: 0 <= i < |unspent.elems| && IsNullish(unspent.elems[i])) ==> r == Failure(TypeError)
    ensures r.Success? ==>
      var kept := KeepConfirmed(unspent.elems, minconf);
      && unspent.Arr? && |r.value| == |kept|
      && forall i :: 0 <= i < |kept| ==> env.newUnspentOutput(kept[i]) == Success(r.value[i])
    ensures unspent.Arr? && (forall i :: 0 <= i < |unspent.elems| ==> !IsNullish(unspent.elems[i])) ==>
      r == MapThrowing(env.newUnspentOutput, KeepConfirmed(unspent.elems, minconf))
  {
    if !unspent.Arr? then Failure(TypeError)
    else if exists i :: 0 <= i < |unspent.elems| && IsNullish(unspent.elems[i]) then Failure(TypeError)
    else MapThrowing(env.newUnspentOutput, KeepConfirmed(unspent.elems, minconf))
  }

  /**
   * A server array with no undefined or null record yields outputs exactly when
   * `UnspentOutput` accepts every kept record; otherwise the error is the one
   * the first refused record raised.
   */
  lemma UnspentOutputsOfRecords(env: Env, records: seq<Value>, minconf: Value, kept: seq<Value>)
    requires forall i :: 0 <= i < |records| ==> !IsNullish(records[i])
    requires kept == KeepConfirmed(records, minconf)
    ensures UnspentOutputs(env, Arr(records), minconf).Success? <==>
              forall i :: 0 <= i < |kept| ==> env.newUnspentOutput(kept[i]).Success?
    ensures UnspentOutputs(env, Arr(records), minconf).Failure? ==>
              exists i :: 0 <= i < |kept| && env.newUnspentOutput(kept[i]) == Failure(UnspentOutputs(env, Arr(records), minconf).error)
                          && forall j :: 0 <= j < i ==> env.newUnspentOutput(kept[j]).Success?
  {
    assert UnspentOutputs(env, Arr(records), minconf) == MapThrowing(env.newUnspentOutput, kept);
  }

  /** What `getUtxos` delivers: mapped outputs, or, as written, the raw body. */
  datatype Utxos = Outputs(outputs: seq<UnspentOutput>) | RawBody(body: Value)

  /**
   * The `getUtxos` callback as written: an InvalidArgument while filtering or
   * mapping is reported, any other exception is swallowed and the callback
   * receives the unmapped server body as its result.
   */
  function UtxoReplyAsWritten(env: Env, minconf: Value, reply: Reply): (c: Completion<Utxos>)
    ensures c.Fails? <==> Rejection(reply, PassResponse).Some? || (reply.Received? && reply.statusCode == 200 && UnspentOutputs(env, reply.body, minconf) == Failure(InvalidArgument))
    ensures c.Fails? && Rejection(reply, PassResponse).Some? ==> c.fault == Rejection(reply, PassResponse).value
    ensures c.Delivers? && c.result.RawBody? ==> reply.Received? && c.result.body == reply.body && UnspentOutputs(env, reply.body, minconf).Failure?
    ensures c.Delivers? && c.result.Outputs? ==> UnspentOutputs(env, reply.body, minconf) == Success(c.result.outputs)
    ensures reply.Received? && reply.statusCode == 200 && UnspentOutputs(env, reply.body, minconf) == Failure(InvalidArgument) ==>
      c == Fails(Raised(InvalidArgument))
    ensures !c.Throws?
  {
    match Rejection(reply, PassResponse)
    case Some(fault) => Fails(fault)
    case None =>
      match UnspentOutputs(env, reply.body, minconf)
      case Success(outputs) => Delivers(Outputs(outputs))
      case Failure(InvalidArgument) => Fails(Raised(InvalidArgument))
      case Failure(_) => Delivers(RawBody(reply.body))
  }

  /**
   * The `getUtxos` callback with every filtering or mapping exception reported:
   * a delivered result is always the mapped outputs of the confirmed records.
   */
  function UtxoReply(env: Env, minconf: Value, reply: Reply): (c: Completion<Utxos>)
    ensures Rejection(reply, PassResponse).Some? ==> c == Fails(Rejection(reply, PassResponse).value)
    ensures c.Delivers? ==>
      && reply.Received? && reply.statusCode == 200 && reply.body.Arr? && c.result.Outputs?
      && var kept := KeepConfirmed(reply.body.elems, minconf);
         |c.result.outputs| == |kept|
         && forall i :: 0 <= i < |kept| ==> Confirmed(kept[i], minconf) && env.newUnspentOutput(kept[i]) == Success(c.result.outputs[i])
    ensures c.Fails? && Rejection(reply, PassResponse).None? ==> c.fault.Raised? && Failure(c.fault.error) == UnspentOutputs(env, reply.body, minconf)
    ensures reply.Received? && reply.statusCode == 200 && UnspentOutputs(env, reply.body, minconf).Success? ==>
      c == Delivers(Outputs(UnspentOutputs(env, reply.body, minconf).value))
    ensures reply.Received? && reply.statusCode == 200 && UnspentOutputs(env, reply.body, minconf).Failure? ==>
      c == Fails(Raised(UnspentOutputs(env, reply.body, minconf).error))
    ensures !c.Throws?
  {
    match Rejection(reply, PassResponse)
    case Some(fault) => Fails(fault)
    case None =>
      match UnspentOutputs(env, reply.body, minconf)
      case Success(outputs) => Delivers(Outputs(outputs))
      case Failure(e) => Fails(Raised(e))
  }

  /**
   * A 200 reply whose body is not an array: as written the callback receives
   * the body as a successful result; reporting every exception gives a TypeError.
   */
  lemma UtxoReplyDeliversRawBody(env: Env)
    ensures UtxoReplyAsWritten(env, Num(0), Received(200, Obj(map[]))) == Delivers(RawBody(Obj(map[])))
    ensures UtxoReply(env, Num(0), Received(200, Obj(map[]))) == Fails(Raised(TypeError))
  {
  }

  /**
   * The `getTransaction`, `getBlocks` and `getBlock` callback: the response
   * object on failure, the parsed body on success; a body that does not parse
   * throws out of the callback.
   */
  function ParsedReply(env: Env, reply: Reply): (c: Completion<Value>)
    ensures Rejection(reply, PassResponse).Some? ==> c == Fails(Rejection(reply, PassResponse).value)
    ensures c.Delivers? <==> reply.Received? && reply.statusCode == 200 && env.parseJson(ToString(reply.body)).Some?
    ensures c.Delivers? ==> env.parseJson(ToString(reply.body)) == Some(c.result)
    ensures c.Fails? ==> Rejection(reply, PassResponse).Some?
    ensures c.Throws? ==> c.error == SyntaxError
  {
    match Rejection(reply, PassResponse)
    case Some(fault) => Fails(fault)
    case None =>
      match JsonParse(env, reply.body)
      case Failure(e) => Throws(e)
      case Success(parsed) => Delivers(parsed)
  }

  /**
   * The `broadcast` callback: the body on failure; on success the body's
   * `txid`, or null when the body is falsy.
   */
  function BroadcastReply(reply: Reply): (c: Completion<Value>)
    ensures Rejection(reply, PassBody).Some? ==> c == Fails(Rejection(reply, PassBody).value)
    ensures c.Delivers? <==> reply.Received? && reply.statusCode == 200
    ensures c.Delivers? && !Truthy(reply.body) ==> c.result == Null
    ensures c.Delivers? && Truthy(reply.body) ==> c.result == FieldOf(reply.body, "txid")
    ensures !c.Throws?
  {
    match Rejection(reply, PassBody)
    case Some(fault) => Fails(fault)
    case None => Delivers(if Truthy(reply.body) then FieldOf(reply.body, "txid") else Null)
  }

  /**
   * A failed call whose body is empty hands the callback an empty string, a
   * falsy error argument.
   */
  lemma EmptyBodyFaultIsFalsy(code: int)
    requires code != 200
    ensures BroadcastReply(Received(code, Str(""))) == Fails(ResponseBody(Str("")))
    ensures !Truthy(Str(""))
  {
  }

  /**
   * The `address` callback: the body on failure; on success the AddressInfo
   * that `fromInsight` builds from the body. A SyntaxError from parsing is
   * reported; any other exception escapes the callback.
   */
  function AddressReply(env: Env, reply: Reply): (c: Completion<AddressInfo>)
    ensures Rejection(reply, PassBody).Some? ==> c == Fails(Rejection(reply, PassBody).value)
    ensures c.Delivers? <==> reply.Received? && reply.statusCode == 200 && FromInsight(env, reply.body).Success?
    ensures c.Delivers? ==> FromInsight(env, reply.body) == Success(c.result) && Valid(env, c.result)
    ensures reply.Received? && reply.statusCode == 200 && reply.body.Str? && env.parseJson(reply.body.s).None? ==>
      c == Fails(Raised(SyntaxError))
    ensures c.Throws? ==> c.error != SyntaxError && FromInsight(env, reply.body) == Failure(c.error)
    ensures reply.Received? && reply.statusCode == 200 && FromInsight(env, reply.body).Failure? ==>
      c == (if FromInsight(env, reply.body).error == SyntaxError then Fails(Raised(SyntaxError))
            else Throws(FromInsight(env, reply.body).error))
  {
    match Rejection(reply, PassBody)
    case Some(fault) => Fails(fault)
    case None =>
      match FromInsight(env, reply.body)
      case Success(info) => Delivers(info)
      case Failure(SyntaxError) => Fails(Raised(SyntaxError))
      case Failure(e) => Throws(e)
  }
}
