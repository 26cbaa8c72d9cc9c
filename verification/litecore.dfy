/**
 * The collaborators whose code the client calls but which are not part of this
 * model: litecore-lib's network registry, Address and UnspentOutput
 * constructors, transaction serialization and hex check, and JSON.parse. Each
 * is an arbitrary function; the model's properties hold for every choice.
 */
module Litecore {
  import opened Wrappers
  import opened Js
  import opened LitecoreTypes

  datatype Env = Env(
    /** `Networks.defaultNetwork`. */
    defaultNetwork: Network,
    /** `Networks.get(v)` for a value that is not itself a network instance. */
    networkByKey: Value -> Option<Network>,
    /** `new Address(v)`; a failure is the exception it throws. */
    newAddress: Value -> Result<Address, Error>,
    /** `UnspentOutput(v)`; a failure is the exception it throws. */
    newUnspentOutput: Value -> Result<UnspentOutput, Error>,
    /** `transaction.serialize()`, which refuses transactions that fail its checks. */
    serialize: Transaction -> Result<string, Error>,
    /** `JSUtil.isHexa(v)`. */
    isHexa: Value -> bool,
    /** `JSON.parse(text)`; `None` is a SyntaxError. */
    parseJson: string -> Option<Value>)

  /** `Networks.get(v)`: a registered network instance is returned as it is. */
  function LookupNetwork(env: Env, v: Value): (r: Option<Network>)
    ensures v.Net? ==> r == Some(v.network)
  {
    if v.Net? then Some(v.network) else env.networkByKey(v)
  }

  /** `JSON.parse(v)`, which first converts its argument to a string. */
  function JsonParse(env: Env, v: Value): (r: Result<Value, Error>)
    ensures r.Failure? <==> env.parseJson(ToString(v)).None?
    ensures r.Failure? ==> r.error == SyntaxError
    ensures r.Success? ==> Some(r.value) == env.parseJson(ToString(v))
  {
    match env.parseJson(ToString(v))
    case None => Failure(SyntaxError)
    case Some(parsed) => Success(parsed)
  }
}
