/**
 * The entities of the Sui SDK that the sponsor workflow handles, and the
 * cryptographic collaborators it calls. Key derivation, validation of key
 * material and signing are not modelled: they are uninterpreted functions
 * carried in a `Crypto` record, so every property proved below holds for
 * every choice of them.
 */
module Sui {

  type Address = string
  type Bytes = seq<bv8>
  type Signature = string
  type Digest = string

  /** The coin type both coin queries ask for. */
  const SuiCoinType: string := "0x2::sui::SUI"

  /**
   * An Ed25519 keypair, identified by the material it was made from.
   * A freshly generated keypair is `FromSecretKey` of its own secret:
   * `fromSecretKey(k.getSecretKey())` yields `k` again.
   */
  datatype Keypair = FromSecretKey(secret: string) | FromMnemonic(phrase: string)

  /** One entry of a `getCoins` page; the balance is the parsed `u64` string. */
  datatype Coin = Coin(coinObjectId: string, version: string, digest: string, balance: nat)

  /** A gas-payment object reference `{ objectId, version, digest }`. */
  datatype ObjectRef = ObjectRef(objectId: string, version: string, digest: string)

  /**
   * The cryptographic collaborators: whether `fromSecretKey` / `deriveKeypair`
   * accept a string, `getPublicKey().toSuiAddress()`, and `signTransaction`.
   */
  datatype Crypto = Crypto(
    acceptsSecretKey: string -> bool,
    acceptsMnemonic: string -> bool,
    address: Keypair -> Address,
    sign: (Keypair, Bytes) -> Signature)

  /** The object reference of a coin, as attached to the gas payment. */
  function RefOf(c: Coin): ObjectRef
  {
    ObjectRef(c.coinObjectId, c.version, c.digest)
  }
}
