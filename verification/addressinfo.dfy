/**
 * lib/models/addressinfo.js: a validated, construct-once summary of one
 * address, built from its six fields or from an Insight address payload.
 */
module AddressInfoModel {
  import opened Wrappers
  import opened Js
  import opened LitecoreTypes
  import opened Litecore

  /** The property names the constructor checks. */
  const InfoKeys: set<string> :=
    {"address", "balance", "totalSent", "totalReceived", "unconfirmedBalance", "transactionIds"}

  /**
   * An AddressInfo instance. `defineImmutable` copies every property of the
   * argument onto the instance, so properties besides the six checked ones are
   * kept in `extra`. The frozen properties cannot be reassigned, and neither
   * can a field of a datatype value; the ids array the instance shares with its
   * argument is taken here as an immutable sequence.
   */
  datatype AddressInfo = AddressInfo(
    address: Address,
    balance: int,
    totalSent: int,
    totalReceived: int,
    unconfirmedBalance: int,
    transactionIds: seq<Value>,
    extra: map<string, Value>)

  /** What every constructed instance satisfies. */
  predicate Valid(env: Env, info: AddressInfo) {
    && (forall i :: 0 <= i < |info.transactionIds| ==> env.isHexa(info.transactionIds[i]))
    && info.extra.Keys !! InfoKeys
  }

  /** The instance's properties, as a plain object would show them. */
  function Properties(info: AddressInfo): map<string, Value> {
    info.extra["address" := Addr(info.address)]["balance" := Num(info.balance)]
      ["totalSent" := Num(info.totalSent)]["totalReceived" := Num(info.totalReceived)]
      ["unconfirmedBalance" := Num(info.unconfirmedBalance)]["transactionIds" := Arr(info.transactionIds)]
  }

  /** The constructor's argument: an existing instance or any other value. */
  datatype Param = Instance(info: AddressInfo) | Plain(value: Value)

  /** The conjunction of `$.checkArgument` tests on a plain argument. */
  predicate Accepts(env: Env, param: Value) {
    && FieldOf(param, "address").Addr?
    && FieldOf(param, "balance").Num?
    && FieldOf(param, "totalSent").Num?
    && FieldOf(param, "totalReceived").Num?
    && FieldOf(param, "unconfirmedBalance").Num?
    && FieldOf(param, "transactionIds").Arr?
    && forall i :: 0 <= i < |FieldOf(param, "transactionIds").elems| ==>
         env.isHexa(FieldOf(param, "transactionIds").elems[i])
  }

  /**
   * `AddressInfo(param)` (withNew false) or `new AddressInfo(param)` (withNew
   * true): an existing instance comes back as it is; otherwise the argument is
   * checked and its properties become the instance's.
   */
  function Construct(env: Env, withNew: bool, param: Param): (r: Result<AddressInfo, Error>)
    ensures param.Instance? ==> r == Success(param.info)
    ensures param.Plain? && IsNullish(param.value) ==> r == Failure(TypeError)
    ensures param.Plain? && !IsNullish(param.value) ==>
      (r.Success? <==> Accepts(env, param.value)) && (r.Failure? ==> r.error == InvalidArgument)
    ensures param.Plain? && r.Success? ==>
      Valid(env, r.value) && param.value.Obj? && Properties(r.value) == param.value.props
    decreases if withNew then 0 else 1
  {
    if !withNew then Construct(env, true, param)
    else match param
      case Instance(info) => Success(info)
      case Plain(v) =>
        if IsNullish(v) then Failure(TypeError)
        else if !Accepts(env, v) then Failure(InvalidArgument)
        else
          var info := AddressInfo(
            FieldOf(v, "address").address,
            FieldOf(v, "balance").n,
            FieldOf(v, "totalSent").n,
            FieldOf(v, "totalReceived").n,
            FieldOf(v, "unconfirmedBalance").n,
            FieldOf(v, "transactionIds").elems,
            v.props - InfoKeys);
          assert Properties(info) == v.props by { PropertiesOfAccepted(env, v, info); }
          Success(info)
  }

  lemma PropertiesOfAccepted(env: Env, v: Value, info: AddressInfo)
    requires !IsNullish(v) && Accepts(env, v)
    requires info == AddressInfo(
            FieldOf(v, "address").address,
            FieldOf(v, "balance").n,
            FieldOf(v, "totalSent").n,
            FieldOf(v, "totalReceived").n,
            FieldOf(v, "unconfirmedBalance").n,
            FieldOf(v, "transactionIds").elems,
            v.props - InfoKeys)
    ensures v.Obj? && Properties(info) == v.props
  {
    assert InfoKeys <= v.props.Keys;
    var p := Properties(info);
    assert p.Keys == v.props.Keys;
    forall k | k in p.Keys ensures p[k] == v.props[k] {
      if k !in InfoKeys {
        assert p[k] == info.extra[k];
      }
    }
  }

  /** Calling the constructor without `new` is the same as calling it with `new`. */
  lemma WithoutNewIsWithNew(env: Env, param: Param)
    ensures Construct(env, false, param) == Construct(env, true, param)
  {
  }

  /** Re-wrapping a constructed instance returns it unchanged, however it is called. */
  lemma RewrapIsIdentity(env: Env, param: Param, withNew: bool, again: bool)
    requires Construct(env, withNew, param).Success?
    ensures Construct(env, again, Instance(Construct(env, withNew, param).value)) == Construct(env, withNew, param)
  {
  }

  /** Every valid instance is what constructing from its own properties gives. */
  lemma ConstructFromProperties(env: Env, info: AddressInfo)
    requires Valid(env, info)
    ensures Construct(env, true, Plain(Obj(Properties(info)))) == Success(info)
  {
    var v := Obj(Properties(info));
    assert FieldOf(v, "transactionIds") == Arr(info.transactionIds);
    assert Accepts(env, v);
    var r := Construct(env, true, Plain(v));
    assert v.props - InfoKeys == info.extra;
  }

  /**
   * Only the types are checked: an empty id list and negative amounts are
   * accepted.
   */
  lemma EmptyIdsAndNegativeAmountsAccepted(env: Env, address: Address, balance: int, sent: int, received: int, unconfirmed: int)
    ensures Construct(env, true, Plain(Obj(map[
      "address" := Addr(address), "balance" := Num(balance), "totalSent" := Num(sent),
      "totalReceived" := Num(received), "unconfirmedBalance" := Num(unconfirmed),
      "transactionIds" := Arr([])]))).Success?
  {
  }

  /** The payload with Insight's field names mapped onto the constructor's. */
  function Renamed(payload: Value, address: Address): map<string, Value> {
    map[
      "address" := Addr(address),
      "balance" := FieldOf(payload, "balanceSat"),
      "totalReceived" := FieldOf(payload, "totalReceivedSat"),
      "totalSent" := FieldOf(payload, "totalSentSat"),
      "unconfirmedBalance" := FieldOf(payload, "unconfirmedBalanceSat"),
      "transactionIds" := FieldOf(payload, "transactions")]
  }

  /**
   * `AddressInfo.fromInsight(param)`: a string is parsed first (a parse failure
   * escapes); then `addrStr` goes through `new Address` and the renamed fields
   * through the constructor.
   */
  function FromInsight(env: Env, param: Value): (r: Result<AddressInfo, Error>)
    ensures r.Success? ==> Valid(env, r.value) && r.value.extra == map[]
  {
    var payload :- if param.Str? then JsonParse(env, param) else Success(param);
    var addrStr :- Prop(payload, "addrStr");
    var address :- env.newAddress(addrStr);
    Construct(env, true, Plain(Obj(Renamed(payload, address))))
  }

  /**
   * A string argument behaves as its parse: a parse failure is a SyntaxError,
   * and a parsed value that is not itself a string is handled exactly as if
   * it had been passed directly.
   */
  lemma FromInsightOfString(env: Env, text: string)
    ensures env.parseJson(text).None? ==> FromInsight(env, Str(text)) == Failure(SyntaxError)
    ensures env.parseJson(text).Some? && !env.parseJson(text).value.Str? ==>
      FromInsight(env, Str(text)) == FromInsight(env, env.parseJson(text).value)
  {
  }

  /**
   * On a payload that is not a string, fromInsight succeeds exactly when the
   * payload is an object, `new Address(addrStr)` succeeds, the four amounts are
   * numbers, `transactions` is an array and every id passes `isHexa`; and then
   * each field of the result is the renamed payload field.
   */
  lemma FromInsightRenames(env: Env, payload: Value)
    requires !payload.Str?
    ensures IsNullish(payload) ==> FromInsight(env, payload) == Failure(TypeError)
    ensures !IsNullish(payload) ==>
      (FromInsight(env, payload).Success? <==>
        && env.newAddress(FieldOf(payload, "addrStr")).Success?
        && FieldOf(payload, "balanceSat").Num?
        && FieldOf(payload, "totalReceivedSat").Num?
        && FieldOf(payload, "totalSentSat").Num?
        && FieldOf(payload, "unconfirmedBalanceSat").Num?
        && FieldOf(payload, "transactions").Arr?
        && forall i :: 0 <= i < |FieldOf(payload, "transactions").elems| ==>
             env.isHexa(FieldOf(payload, "transactions").elems[i]))
    ensures FromInsight(env, payload).Success? ==>
      var info := FromInsight(env, payload).value;
      && env.newAddress(FieldOf(payload, "addrStr")) == Success(info.address)
      && FieldOf(payload, "balanceSat") == Num(info.balance)
      && FieldOf(payload, "totalReceivedSat") == Num(info.totalReceived)
      && FieldOf(payload, "totalSentSat") == Num(info.totalSent)
      && FieldOf(payload, "unconfirmedBalanceSat") == Num(info.unconfirmedBalance)
      && FieldOf(payload, "transactions") == Arr(info.transactionIds)
    ensures !IsNullish(payload) && FromInsight(env, payload).Failure? ==>
      FromInsight(env, payload).error ==
        if env.newAddress(FieldOf(payload, "addrStr")).Failure? then env.newAddress(FieldOf(payload, "addrStr")).error
        else InvalidArgument
  {
    if !IsNullish(payload) && env.newAddress(FieldOf(payload, "addrStr")).Success? {
      var address := env.newAddress(FieldOf(payload, "addrStr")).value;
      var v := Obj(Renamed(payload, address));
      assert FieldOf(v, "transactionIds") == FieldOf(payload, "transactions");
      if FromInsight(env, payload).Success? {
        var info := FromInsight(env, payload).value;
        assert Properties(info) == v.props;
        assert Properties(info)["balance"] == Num(info.balance);
        assert Properties(info)["totalReceived"] == Num(info.totalReceived);
        assert Properties(info)["totalSent"] == Num(info.totalSent);
        assert Properties(info)["unconfirmedBalance"] == Num(info.unconfirmedBalance);
        assert Properties(info)["transactionIds"] == Arr(info.transactionIds);
        assert Properties(info)["address"] == Addr(info.address);
      }
    }
  }

  /** fromInsight reads no payload field besides Insight's six. */
  lemma FromInsightReadsOnlyInsightFields(env: Env, p: Value, q: Value)
    requires !p.Str? && !q.Str? && !IsNullish(p) && !IsNullish(q)
    requires forall k :: k in {"addrStr", "balanceSat", "totalReceivedSat", "totalSentSat", "unconfirmedBalanceSat", "transactions"} ==>
      FieldOf(p, k) == FieldOf(q, k)
    ensures FromInsight(env, p) == FromInsight(env, q)
  {
    assert FieldOf(p, "addrStr") == FieldOf(q, "addrStr");
    if env.newAddress(FieldOf(p, "addrStr")).Success? {
      var address := env.newAddress(FieldOf(p, "addrStr")).value;
      assert FieldOf(p, "balanceSat") == FieldOf(q, "balanceSat");
      assert FieldOf(p, "totalReceivedSat") == FieldOf(q, "totalReceivedSat");
      assert FieldOf(p, "totalSentSat") == FieldOf(q, "totalSentSat");
      assert FieldOf(p, "unconfirmedBalanceSat") == FieldOf(q, "unconfirmedBalanceSat");
      assert FieldOf(p, "transactions") == FieldOf(q, "transactions");
      assert Renamed(p, address) == Renamed(q, address);
    }
  }

  /** The sample Insight payload: balance 500 and the one transaction id come through. */
  lemma FromInsightSample(env: Env, addrStr: string, txid: string)
    requires env.newAddress(Str(addrStr)).Success?
    requires env.isHexa(Str(txid))
    ensures var r := FromInsight(env, Obj(map[
      "addrStr" := Str(addrStr), "balanceSat" := Num(500), "totalReceivedSat" := Num(500),
      "totalSentSat" := Num(0), "unconfirmedBalanceSat" := Num(0), "transactions" := Arr([Str(txid)])]));
      r.Success? && r.value.balance == 500 && r.value.transactionIds == [Str(txid)]
  {
    var payload := Obj(map[
      "addrStr" := Str(addrStr), "balanceSat" := Num(500), "totalReceivedSat" := Num(500),
      "totalSentSat" := Num(0), "unconfirmedBalanceSat" := Num(0), "transactions" := Arr([Str(txid)])]);
    FromInsightRenames(env, payload);
  }
}

