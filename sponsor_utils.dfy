/**
 * Sponsor identity resolution and balance inspection (privytest/src/sponsorUtils.ts).
 *
 * The two Vite environment variables are read-only configuration; the browser's
 * `localStorage` is a string-to-string map that resolution may write and that
 * `clearDemoSponsor` deletes from. Resolution is specified by the function
 * `Resolve`; the store class carries it out on its own `storage` field.
 */
module SponsorUtils {
  import opened Wrappers
  import opened Sui

  /** The `localStorage` key under which a generated demo secret is kept. */
  const DemoKey: string := "demo_sponsor_private_key"

  /** `VITE_SPONSOR_PRIVATE_KEY` and `VITE_SPONSOR_MNEMONIC`; `None` when unset. */
  datatype Env = Env(privateKey: Option<string>, mnemonic: Option<string>)

  /** The four answers of `getSponsorSource`. */
  datatype SponsorSource = EnvPrivateKey | EnvMnemonic | LocalStorage | Generated

  /** What `fromSecretKey` / `deriveKeypair` throw on material they reject. */
  datatype SponsorError = InvalidCredentialFormat(material: string)

  /** What one resolution returns, together with the storage it leaves behind. */
  datatype Resolution = Resolution(keypair: Result<Keypair, SponsorError>, storage: map<string, string>)

  /** `{ hasBalance, totalBalance, coinCount }` */
  datatype BalanceInfo = BalanceInfo(hasBalance: bool, totalBalance: nat, coinCount: nat)

  /** JavaScript truthiness of an optional string: unset and `""` are both false. */
  predicate Truthy(o: Option<string>)
  {
    o.Some? && o.value != ""
  }

  /** `localStorage.getItem(key)`: `null` for a missing key. */
  function GetItem(storage: map<string, string>, key: string): Option<string>
  {
    if key in storage then Some(storage[key]) else None
  }

  /** `Ed25519Keypair.fromSecretKey(s)`, which throws on malformed material. */
  function LoadSecretKey(crypto: Crypto, s: string): Result<Keypair, SponsorError>
  {
    if crypto.acceptsSecretKey(s) then Ok(FromSecretKey(s)) else Err(InvalidCredentialFormat(s))
  }

  /** `Ed25519Keypair.deriveKeypair(m)`, which throws on a malformed phrase. */
  function DeriveKeypair(crypto: Crypto, m: string): Result<Keypair, SponsorError>
  {
    if crypto.acceptsMnemonic(m) then Ok(FromMnemonic(m)) else Err(InvalidCredentialFormat(m))
  }

  /** `getSponsorSource()`: which credential resolution would use. */
  function Source(env: Env, storage: map<string, string>): (s: SponsorSource)
    ensures s == EnvPrivateKey ==> Truthy(env.privateKey)
    ensures s == EnvMnemonic ==> !Truthy(env.privateKey) && Truthy(env.mnemonic)
    ensures s == LocalStorage ==>
      !Truthy(env.privateKey) && !Truthy(env.mnemonic) && DemoKey in storage && storage[DemoKey] != ""
    ensures s == Generated ==>
      !Truthy(env.privateKey) && !Truthy(env.mnemonic) && (DemoKey in storage ==> storage[DemoKey] == "")
  {
    if Truthy(env.privateKey) then EnvPrivateKey
    else if Truthy(env.mnemonic) then EnvMnemonic
    else if Truthy(GetItem(storage, DemoKey)) then LocalStorage
    else Generated
  }

  /**
   * `isSponsorConfiguredFromEnv()`: true exactly when, whatever the storage
   * holds, the source is one of the two environment variables.
   */
  function ConfiguredFromEnv(env: Env): (b: bool)
    ensures forall storage: map<string, string> ::
      b <==> Source(env, storage) in {EnvPrivateKey, EnvMnemonic}
  {
    Truthy(env.privateKey) || Truthy(env.mnemonic)
  }

  /**
   * `createSponsorKeypair()` as a function of the configuration, the storage
   * and the secret `new Ed25519Keypair()` would generate on this call.
   * Its contract says that it takes exactly the branch `Source` names, and
   * that only the generate branch writes, and only the demo key.
   */
  function Resolve(env: Env, storage: map<string, string>, crypto: Crypto, newSecret: string): (r: Resolution)
    ensures Source(env, storage) != Generated ==> r.storage == storage
    ensures Source(env, storage) == EnvPrivateKey ==>
      r.keypair == LoadSecretKey(crypto, env.privateKey.value)
    ensures Source(env, storage) == EnvMnemonic ==>
      r.keypair == DeriveKeypair(crypto, env.mnemonic.value)
    ensures Source(env, storage) == LocalStorage ==>
      r.keypair == LoadSecretKey(crypto, storage[DemoKey])
    ensures Source(env, storage) == Generated ==>
      r.keypair == Ok(FromSecretKey(newSecret)) && r.storage == storage[DemoKey := newSecret]
  {
    if Truthy(env.privateKey) then
      Resolution(LoadSecretKey(crypto, env.privateKey.value), storage)
    else if Truthy(env.mnemonic) then
      Resolution(DeriveKeypair(crypto, env.mnemonic.value), storage)
    else
      var stored := GetItem(storage, DemoKey);
      if Truthy(stored) then
        Resolution(LoadSecretKey(crypto, stored.value), storage)
      else
        Resolution(Ok(FromSecretKey(newSecret)), storage[DemoKey := newSecret])
  }

  /**
   * What the SDK guarantees of a generated key: its secret string is not
   * empty and `fromSecretKey` accepts it.
   */
  predicate GeneratedSecretSound(crypto: Crypto, newSecret: string)
  {
    newSecret != "" && crypto.acceptsSecretKey(newSecret)
  }

  /** A set private key decides the sponsor, whatever the mnemonic and storage hold. */
  lemma PrivateKeyWins(pk: string, m1: Option<string>, m2: Option<string>,
                       s1: map<string, string>, s2: map<string, string>,
                       crypto: Crypto, f1: string, f2: string)
    requires pk != ""
    ensures Resolve(Env(Some(pk), m1), s1, crypto, f1).keypair
         == Resolve(Env(Some(pk), m2), s2, crypto, f2).keypair
         == LoadSecretKey(crypto, pk)
    ensures Resolve(Env(Some(pk), m1), s1, crypto, f1).storage == s1
  {
  }

  /** Absent a private key, a set mnemonic decides the sponsor, whatever storage holds. */
  lemma MnemonicWins(pk: Option<string>, m: string,
                     s1: map<string, string>, s2: map<string, string>,
                     crypto: Crypto, f1: string, f2: string)
    requires !Truthy(pk) && m != ""
    ensures Resolve(Env(pk, Some(m)), s1, crypto, f1).keypair
         == Resolve(Env(pk, Some(m)), s2, crypto, f2).keypair
         == DeriveKeypair(crypto, m)
    ensures Resolve(Env(pk, Some(m)), s1, crypto, f1).storage == s1
  {
  }

  /**
   * After one resolution, a second one on the same configuration returns the
   * same keypair and writes nothing, whatever it would generate: a generated
   * key is persisted and then read back.
   */
  lemma ResolveIdempotent(env: Env, storage: map<string, string>, crypto: Crypto, f1: string, f2: string)
    requires GeneratedSecretSound(crypto, f1)
    ensures var first := Resolve(env, storage, crypto, f1);
            var second := Resolve(env, first.storage, crypto, f2);
            second == first
  {
  }

  /** A second resolution after a generated one reports the stored source. */
  lemma GeneratedThenStored(env: Env, storage: map<string, string>, crypto: Crypto, newSecret: string)
    requires Source(env, storage) == Generated
    requires GeneratedSecretSound(crypto, newSecret)
    ensures Source(env, Resolve(env, storage, crypto, newSecret).storage) == LocalStorage
  {
  }

  /**
   * Clearing only removes the demo key: `getSponsorSource` is unchanged when the
   * environment configures the sponsor, and is `generated` otherwise.
   */
  lemma ClearedSource(env: Env, storage: map<string, string>)
    ensures ConfiguredFromEnv(env) ==> Source(env, storage - {DemoKey}) == Source(env, storage)
    ensures !ConfiguredFromEnv(env) ==> Source(env, storage - {DemoKey}) == Generated
  {
  }

  /** The sum of the coin balances, accumulated from the left starting at zero as the source's fold does. */
  function TotalBalance(coins: seq<Coin>): (total: nat)
    ensures coins == [] ==> total == 0
    ensures forall i :: 0 <= i < |coins| ==> coins[i].balance <= total
  {
    if coins == [] then 0 else TotalBalance(coins[..|coins| - 1]) + coins[|coins| - 1].balance
  }

  /** The total is positive exactly when some coin has a positive balance. */
  lemma {:induction false} TotalBalancePositive(coins: seq<Coin>)
    ensures TotalBalance(coins) > 0 <==> exists i :: 0 <= i < |coins| && coins[i].balance > 0
  {
    if coins != [] {
      var init := coins[..|coins| - 1];
      TotalBalancePositive(init);
      if TotalBalance(init) > 0 {
        var i :| 0 <= i < |init| && init[i].balance > 0;
        assert coins[i] == init[i];
      }
      forall i | 0 <= i < |init| ensures coins[i] == init[i] { }
    }
  }

  /**
   * `checkSponsorBalance(suiClient, address)` given the answer of its `getCoins`
   * query: the coin count, the sum of their balances and whether the sponsor can
   * pay, or all zeros when the query (or the balance parsing) threw.
   */
  function CheckSponsorBalance(query: Result<seq<Coin>, string>): (info: BalanceInfo)
    ensures query.Err? ==> info == BalanceInfo(false, 0, 0)
    ensures query.Ok? ==> info.coinCount == |query.value| && info.totalBalance == TotalBalance(query.value)
    ensures query.Ok? ==>
      (info.hasBalance <==> exists i :: 0 <= i < |query.value| && query.value[i].balance > 0)
  {
    match query
    case Err(_) => BalanceInfo(false, 0, 0)
    case Ok(coins) =>
      var total := TotalBalance(coins);
      TotalBalancePositive(coins);
      BalanceInfo(total > 0 && |coins| > 0, total, |coins|)
  }

  /** The `coins.length > 0` conjunct adds nothing: a positive total needs a coin. */
  lemma HasBalanceIsPositiveTotal(coins: seq<Coin>)
    ensures CheckSponsorBalance(Ok(coins)).hasBalance <==> TotalBalance(coins) > 0
  {
  }

  /**
   * The sponsor-facing part of browser state: the environment, which never
   * changes, and `localStorage`.
   */
  class SponsorStore {
    const env: Env
    var storage: map<string, string>

    constructor (env: Env, storage: map<string, string>)
      ensures this.env == env && this.storage == storage
    {
      this.env := env;
      this.storage := storage;
    }

    /**
     * `createSponsorKeypair()`: the first available of the private key, the
     * mnemonic, the stored demo key, or a key generated from `newSecret` and stored.
     */
    method CreateSponsorKeypair(crypto: Crypto, newSecret: string) returns (r: Result<Keypair, SponsorError>)
      modifies this
      ensures Resolution(r, storage) == Resolve(env, old(storage), crypto, newSecret)
    {
      if Truthy(env.privateKey) {
        return LoadSecretKey(crypto, env.privateKey.value);
      }
      if Truthy(env.mnemonic) {
        return DeriveKeypair(crypto, env.mnemonic.value);
      }
      var stored := GetItem(storage, DemoKey);
      if Truthy(stored) {
        return LoadSecretKey(crypto, stored.value);
      }
      var sponsorKeypair := FromSecretKey(newSecret);
      var secretKeyString := sponsorKeypair.secret;
      storage := storage[DemoKey := secretKeyString];
      return Ok(sponsorKeypair);
    }

    /** `getSponsorKeypair()`, which only delegates. */
    method GetSponsorKeypair(crypto: Crypto, newSecret: string) returns (r: Result<Keypair, SponsorError>)
      modifies this
      ensures Resolution(r, storage) == Resolve(env, old(storage), crypto, newSecret)
    {
      r := CreateSponsorKeypair(crypto, newSecret);
    }

    /** `getOrCreateDemoSponsor()`, the legacy alias. */
    method GetOrCreateDemoSponsor(crypto: Crypto, newSecret: string) returns (r: Result<Keypair, SponsorError>)
      modifies this
      ensures Resolution(r, storage) == Resolve(env, old(storage), crypto, newSecret)
    {
      r := GetSponsorKeypair(crypto, newSecret);
    }

    /** `clearDemoSponsor()`: `localStorage.removeItem(DemoKey)`. */
    method ClearDemoSponsor()
      modifies this
      ensures storage == old(storage) - {DemoKey}
      ensures forall k :: k in old(storage) && k != DemoKey ==> k in storage && storage[k] == old(storage)[k]
      ensures DemoKey !in storage
    {
      storage := storage - {DemoKey};
    }
  }

  /** Two resolutions in a row through the store agree, and the second writes nothing. */
  method ResolveTwice(store: SponsorStore, crypto: Crypto, f1: string, f2: string)
      returns (k1: Result<Keypair, SponsorError>, k2: Result<Keypair, SponsorError>)
    requires GeneratedSecretSound(crypto, f1)
    modifies store
    ensures k1 == k2
    ensures store.storage == Resolve(store.env, old(store.storage), crypto, f1).storage
  {
    k1 := store.CreateSponsorKeypair(crypto, f1);
    k2 := store.CreateSponsorKeypair(crypto, f2);
    ResolveIdempotent(store.env, old(store.storage), crypto, f1, f2);
  }
}
