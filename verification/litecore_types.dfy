/**
 * The litecore-lib value types the client handles. Their internals (base58
 * encoding, scripts, signatures) are not part of this model: each is reduced to
 * the part the client observes.
 */
module LitecoreTypes {

  /** A registered network; `name` is what `network.toString()` gives. */
  datatype Network = Network(name: string)

  const Livenet: Network := Network("livenet")

  /** A parsed address; `text` is what `address.toString()` gives. */
  datatype Address = Address(text: string)

  /** A transaction object; `hex` is its unchecked serialization (`toString()`). */
  datatype Transaction = Transaction(hex: string)

  /** The canonical unspent-output record built by `UnspentOutput(raw)`. */
  datatype UnspentOutput = UnspentOutput(address: Address, txId: string, outputIndex: nat, script: string, satoshis: nat)
}
