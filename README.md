# Sponsored ("gasless") transactions for a Sui dApp — a verified model

This project models the sponsor workflow of a demo Sui dApp. A separate
sponsor account pays the gas for transactions that the connected user
authorises. The work has two parts:

- **Sponsor identity and balance** (`privytest/src/sponsorUtils.ts`). The
  sponsor keypair comes from the first credential available, in this order:
  the `VITE_SPONSOR_PRIVATE_KEY` environment variable, then
  `VITE_SPONSOR_MNEMONIC`, then a demo secret kept in `localStorage` under
  `demo_sponsor_private_key`, and last a newly generated secret, which is then
  stored there. `getSponsorSource` and `isSponsorConfiguredFromEnv` report
  which credential that is. `clearDemoSponsor` deletes the stored secret.
  `checkSponsorBalance` turns a coin list into a total, a count and a
  `hasBalance` flag.
- **Sponsored execution** (`executeGaslessTransaction` in
  `privytest/src/GaslessTransactionProvider.tsx`). Its steps:
  1. reject a missing sponsor;
  2. rebuild the caller's transaction from its kind bytes;
  3. set the caller as sender and the sponsor as gas owner;
  4. query the sponsor's SUI coins and reject an empty list;
  5. attach the first ten coins at most as gas payment;
  6. serialise once, have the user and then the sponsor sign those bytes;
  7. submit with the signatures in the order `[user, sponsor]`.

Modules:

- `Wrappers` (`wrappers.dfy`): `Option` and `Result`.
- `Sui` (`sui.dfy`): the SDK's entities (keypair, coin, object reference)
  and the cryptographic collaborators. These are a `Crypto` record of
  uninterpreted functions: `fromSecretKey` / `deriveKeypair` acceptance,
  address derivation and signing. Every property holds for every choice of
  them.
- `SponsorUtils` (`sponsor_utils.dfy`):
  - `Resolve` specifies resolution as a function of the configuration, the
    storage, and the secret that generation would produce (randomness is a
    parameter).
  - The class `SponsorStore` holds the read-only environment and the mutable
    `localStorage` map. Its methods carry out resolution and clearing in
    place.
- `GaslessProvider` (`gasless_provider.dfy`):
  - `Run` specifies one call: the digest returned or the error thrown, and
    the external effects in order (kind build, coin query, build, user
    signature, sponsor signature, execution).
  - The class `Provider` does the call step by step on a mutable
    `SponsoredTx` draft (`fromKind`, `setSender`, `setGasOwner`,
    `setGasPayment`) and appends each effect to its `log`.
  - What the SDK and the network answer during one call is a `Chain` record
    of functions, passed to that call.

Modelling choices:

- **JavaScript truthiness.** An environment variable or stored value is
  `Option<string>`. Both `None` and `Some("")` are falsy (`Truthy`), as in the
  source's plain `if` tests.
- **Keypair identity.** A keypair is identified by the material it was made
  from. A generated keypair is `FromSecretKey(secret)`, which takes as given
  that `fromSecretKey(k.getSecretKey())` is `k`. `GeneratedSecretSound`
  states what the SDK is trusted for: a generated secret is non-empty and
  `fromSecretKey` accepts it.
- **Bytes.** The serialised transaction is whatever bytes `build` returns
  for the assembled payload.

Behaviour a reader might expect to be different:

- A failed balance query returns `{ hasBalance: false, totalBalance: 0,
  coinCount: 0 }`. It is not a separate "unknown" outcome, so callers cannot
  tell it apart from an empty account.
- A user who cancels signing, and the empty coin list, are not distinct
  error kinds. The first passes on whatever the wallet threw. The second
  throws a plain `Error` with the message "Sponsor has no SUI coins for gas
  payment".
- `executeGaslessTransaction` does not wait for finality. It returns the
  digest of the `executeTransactionBlock` response. Waiting happens in the
  calling hook, which is not part of this model.

## Model

| member | source | states |
|---|---|---|
| SponsorUtils.Source | privytest/src/sponsorUtils.ts:110-115 | each answer names a credential that is present (a non-empty private key, mnemonic or stored demo key), and every credential earlier in the precedence order is absent; `generated` means none is present |
| SponsorUtils.Resolve | privytest/src/sponsorUtils.ts:9-39 | resolution takes exactly the branch `getSponsorSource` names: the private key, else the mnemonic, else the stored demo key, each without changing storage; otherwise it returns the key made from the new secret and stores that secret under `demo_sponsor_private_key` |
| SponsorUtils.SponsorStore.CreateSponsorKeypair | privytest/src/sponsorUtils.ts:9-39 | the keypair returned, or the invalid credential thrown, and the storage left behind are those of `Resolve` on the storage beforehand |
| SponsorUtils.SponsorStore.GetSponsorKeypair | privytest/src/sponsorUtils.ts:96-98 | same result and storage effect as `createSponsorKeypair` |
| SponsorUtils.SponsorStore.GetOrCreateDemoSponsor | privytest/src/sponsorUtils.ts:126-128 | same result and storage effect as `getSponsorKeypair` |
| SponsorUtils.SponsorStore.ClearDemoSponsor | privytest/src/sponsorUtils.ts:120-123 | removes `demo_sponsor_private_key` and keeps every other stored key and value |
| SponsorUtils.ConfiguredFromEnv | privytest/src/sponsorUtils.ts:103-105 | true exactly when `getSponsorSource` answers `env_private_key` or `env_mnemonic`, whatever the storage holds |
| SponsorUtils.PrivateKeyWins | privytest/src/sponsorUtils.ts:14-17 | a non-empty private key decides the keypair whatever the mnemonic and storage hold, and resolution leaves storage unchanged |
| SponsorUtils.MnemonicWins | privytest/src/sponsorUtils.ts:19-22 | without a private key, a non-empty mnemonic decides the keypair whatever storage holds, and resolution leaves storage unchanged |
| SponsorUtils.ResolveIdempotent | privytest/src/sponsorUtils.ts:25-38 | a second resolution on the storage the first left behind returns the same keypair and writes nothing |
| SponsorUtils.GeneratedThenStored | privytest/src/sponsorUtils.ts:32-38 | after the generate branch, `getSponsorSource` answers `localStorage` |
| SponsorUtils.ClearedSource | privytest/src/sponsorUtils.ts:110-123 | clearing does not change an environment-configured source, and without environment configuration the source becomes `generated` |
| SponsorUtils.ResolveTwice | privytest/src/sponsorUtils.ts:25-38 | two `createSponsorKeypair` calls in a row on one store return the same keypair, and the storage is what the first call left |
| SponsorUtils.TotalBalance | privytest/src/sponsorUtils.ts:75 | the fold of an empty coin list is zero, and no coin's balance exceeds the total |
| SponsorUtils.TotalBalancePositive | privytest/src/sponsorUtils.ts:75-76 | the folded total is positive exactly when some coin has a positive balance |
| SponsorUtils.CheckSponsorBalance | privytest/src/sponsorUtils.ts:65-91 | on a query error it returns `{false, 0, 0}`; otherwise `coinCount` is the number of coins, `totalBalance` their summed balances, and `hasBalance` holds exactly when some coin has a positive balance |
| SponsorUtils.HasBalanceIsPositiveTotal | privytest/src/sponsorUtils.ts:76 | `hasBalance` is equivalent to a positive total: the coin-count conjunct adds nothing |
| GaslessProvider.Refs | privytest/src/GaslessTransactionProvider.tsx:69-73 | the mapped references are as many as the coins, and each is the reference of the coin at the same position |
| GaslessProvider.GasPayment | privytest/src/GaslessTransactionProvider.tsx:69-73 | exactly min(10, number of coins) references, the i-th being `(coinObjectId, version, digest)` of the i-th coin in query order |
| GaslessProvider.Run | privytest/src/GaslessTransactionProvider.tsx:31-97 | one call: without a keypair it throws with no effects; it has at most six effects; it returns a digest only when the sixth effect is a submission that `executeTransactionBlock` answered with that digest |
| GaslessProvider.NoSponsorNoEffects | privytest/src/GaslessTransactionProvider.tsx:36-38 | without a sponsor keypair the call throws the not-configured error before any build, query, signature or execution |
| GaslessProvider.PayloadNamesSenderAndSponsor | privytest/src/GaslessTransactionProvider.tsx:41-56 | the payload built carries the caller's transaction kind, the `sender` argument as sender and the sponsor's address as gas owner |
| GaslessProvider.GasPaymentFromSponsorCoins | privytest/src/GaslessTransactionProvider.tsx:58-73 | the payload is built only after a successful, non-empty query of the sponsor's SUI coins, and its gas payment is the first at most ten of them (between one and ten) |
| GaslessProvider.EmptyCoinsAbort | privytest/src/GaslessTransactionProvider.tsx:64-66 | an empty coin list makes the call throw (the no-coins error once the kind build succeeded); nothing is built, neither party signs, nothing is executed |
| GaslessProvider.OneSerialisation | privytest/src/GaslessTransactionProvider.tsx:76-86 | the user's signature, the sponsor's signature and the submission all use the one byte string that the single build of the payload produced |
| GaslessProvider.SignatureOrder | privytest/src/GaslessTransactionProvider.tsx:79-87 | the submitted signatures are `[user signature, sponsor signature]` over the submitted bytes, and the sponsor signs as the sponsor address |
| GaslessProvider.StepsInOrder | privytest/src/GaslessTransactionProvider.tsx:40-96 | effects happen in protocol order, each at most once; every step before the last succeeded; a passed-on error is the last step's error; the call returns only after `executeTransactionBlock` answered, with the digest of that answer |
| GaslessProvider.ThrownMessages | privytest/src/GaslessTransactionProvider.tsx:36-96 | the call's own errors carry the not-configured message exactly when the keypair is missing, and otherwise the no-coins message after an empty coin query; any other error is the failing step's own error, passed on unchanged |
| GaslessProvider.UserRejectionAborts | privytest/src/GaslessTransactionProvider.tsx:79-80 | when the user's signing fails, the sponsor does not sign, nothing is executed, and the call throws what the signer threw |
| GaslessProvider.Provider.ExecuteGaslessTransaction | privytest/src/GaslessTransactionProvider.tsx:31-97 | the step-by-step call over the mutable draft returns what `Run` returns and appends exactly `Run`'s effects to the log |
| GaslessProvider.Provider.SignAndSubmitStep | privytest/src/GaslessTransactionProvider.tsx:78-93 | the user signs, then the sponsor, then the bytes are submitted; result and log are those of `SignAndSubmit` after the effects already logged |
| GaslessProvider.SponsoredTx.FromKind | privytest/src/GaslessTransactionProvider.tsx:50 | the draft rebuilt from the kind bytes has no sender, gas owner or gas payment yet |
| GaslessProvider.SponsoredTx.SetSender | privytest/src/GaslessTransactionProvider.tsx:53 | sets the sender and leaves the rest of the draft unchanged |
| GaslessProvider.SponsoredTx.SetGasOwner | privytest/src/GaslessTransactionProvider.tsx:56 | sets the gas owner and leaves the rest of the draft unchanged |
| GaslessProvider.SponsoredTx.SetGasPayment | privytest/src/GaslessTransactionProvider.tsx:69-73 | sets the gas payment and leaves the rest of the draft unchanged |
| GaslessProvider.Provider.IsGaslessEnabled | privytest/src/GaslessTransactionProvider.tsx:101 | true exactly when the provider is enabled and has a sponsor address |
| GaslessProvider.Provider.SponsorAddress | privytest/src/GaslessTransactionProvider.tsx:102 | undefined exactly when there is no keypair, and otherwise the keypair's derived address |
| GaslessProvider.EnabledMeansSponsorPresent | privytest/src/GaslessTransactionProvider.tsx:101 | `isGaslessEnabled` is `enabled` and a keypair is present; when it holds, the call gets past the missing-sponsor check |
| GaslessProvider.SponsorAddressIsGasOwner | privytest/src/GaslessTransactionProvider.tsx:102 | `sponsorAddress` is undefined exactly when there is no keypair; otherwise it is the gas owner of every payload the provider builds |

## Left out

- SponsorUtils.Resolve and SponsorUtils.SponsorStore.CreateSponsorKeypair: browser storage access is taken never to throw. In a browser, `localStorage.getItem` can throw `SecurityError` when storage is blocked, and `setItem` can throw `QuotaExceededError`. Either one would escape `createSponsorKeypair`, which catches nothing, and also `getSponsorSource` and `clearDemoSponsor`. In the model the generate branch always stores its secret and succeeds.
- `fundSponsorAccount` (sponsorUtils.ts:45-60): it makes one faucet request and passes its error on. It is network I/O with no decision logic.
- Console logging throughout: it has no effect on results.
- `useGaslessTransaction` (GaslessTransactionProvider.tsx:112-118) and the React provider rendering: React context plumbing.
- The default `enabled = true` of the provider's props: the model's constructor takes `enabled` explicitly.
- Key formats, Ed25519, address derivation and signature validity: uninterpreted functions in `Crypto`. The sponsor's `signTransaction` is taken never to fail.
- The BCS serialisation and `Transaction.fromKind`: the SDK's builder is a collaborator. Its output is whatever `Chain.build` returns for the assembled payload.
- Pagination of `getCoins`: both queries use only the first page the client returns, and the model takes that page as the whole coin list.
- Parsing of coin balances with `BigInt`: balances are naturals. A malformed balance string, which makes the source's `try` return zeros, is covered only as a failed query.
- The on-chain effects status: `executeTransactionBlock`'s response is reduced to its digest or a thrown error, as the source only reads `result.digest`.
- Concurrent calls racing for the same sponsor coins: the source has no locking, and the model covers one call at a time.
