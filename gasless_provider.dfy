/**
 * Sponsored ("gasless") transaction assembly and dual-signature submission
 * (privytest/src/GaslessTransactionProvider.tsx).
 *
 * `Run` specifies one call of `executeGaslessTransaction`: the value it
 * returns or throws, and the external effects it has, in order. The provider
 * class performs the call step by step on a mutable draft transaction and
 * records each effect in its log.
 */
module GaslessProvider {
  import opened Wrappers
  import opened Sui

  /** At most this many sponsor coins are attached as gas payment. */
  const MaxGasCoins: nat := 10

  /** The caller's transaction (a programmable transaction block, sender-agnostic). */
  datatype Transaction = Transaction(commands: seq<string>)

  /** The draft built from the kind bytes: sender, gas owner and gas payment as set so far. */
  datatype Payload = Payload(
    kind: Bytes,
    sender: Option<Address>,
    gasOwner: Option<Address>,
    gasPayment: Option<seq<ObjectRef>>)

  /**
   * The responses of the chain client and of the SDK's builder during one call:
   * `transaction.build({ onlyTransactionKind: true })`, `getCoins`,
   * `sponsoredTx.build(...)` and `executeTransactionBlock`.
   */
  datatype Chain = Chain(
    buildKind: Transaction -> Result<Bytes, string>,
    getCoins: (Address, string) -> Result<seq<Coin>, string>,
    build: Payload -> Result<Bytes, string>,
    execute: (Bytes, seq<Signature>) -> Result<Digest, string>)

  /** The external effects of one call, in the order they can happen. */
  datatype Event =
    | BuildKind(transaction: Transaction)
    | GetCoins(owner: Address, coinType: string)
    | Build(payload: Payload)
    | UserSign(bytes: Bytes)
    | SponsorSign(signer: Address, bytes: Bytes)
    | Execute(bytes: Bytes, signatures: seq<Signature>)

  /** What the call throws: its own two errors, or a collaborator's error passed on unchanged. */
  datatype GaslessError = SponsorNotConfigured | NoGasCoins | Failed(message: string)

  /** The result of one call with the effects it had. */
  datatype Outcome = Outcome(result: Result<Digest, GaslessError>, events: seq<Event>)

  const NoSponsorMessage: string := "Sponsor keypair not configured for gasless transactions"
  const NoGasCoinsMessage: string := "Sponsor has no SUI coins for gas payment"

  /** The message of the thrown `Error`. */
  function ErrorMessage(e: GaslessError): string
  {
    match e
    case SponsorNotConfigured => NoSponsorMessage
    case NoGasCoins => NoGasCoinsMessage
    case Failed(m) => m
  }

  /** Each coin mapped to its object reference, in order. */
  function Refs(coins: seq<Coin>): (refs: seq<ObjectRef>)
    ensures |refs| == |coins|
    ensures forall i :: 0 <= i < |coins| ==> refs[i] == RefOf(coins[i])
  {
    if coins == [] then [] else [RefOf(coins[0])] + Refs(coins[1..])
  }

  /** The gas payment: the references of the first at most ten coins, in query order. */
  function GasPayment(coins: seq<Coin>): (refs: seq<ObjectRef>)
    ensures |refs| == if |coins| < MaxGasCoins then |coins| else MaxGasCoins
    ensures forall i :: 0 <= i < |refs| ==>
      refs[i].objectId == coins[i].coinObjectId &&
      refs[i].version == coins[i].version &&
      refs[i].digest == coins[i].digest
  {
    Refs(coins[..if |coins| < MaxGasCoins then |coins| else MaxGasCoins])
  }

  /** One call of `executeGaslessTransaction(transaction, sender, userSignTransaction)`. */
  function Run(sponsor: Option<Keypair>, crypto: Crypto, tx: Transaction, sender: Address,
               userSign: Bytes -> Result<Signature, string>, chain: Chain): (o: Outcome)
    ensures sponsor.None? ==> o == Outcome(Err(SponsorNotConfigured), [])
    ensures |o.events| <= 6
    ensures o.result.Ok? ==>
      |o.events| == 6 && o.events[5].Execute? &&
      chain.execute(o.events[5].bytes, o.events[5].signatures) == Ok(o.result.value)
  {
    match sponsor
    case None => Outcome(Err(SponsorNotConfigured), [])
    case Some(kp) =>
      var sponsorAddress := crypto.address(kp);
      var e0 := [BuildKind(tx)];
      match chain.buildKind(tx)
      case Err(m) => Outcome(Err(Failed(m)), e0)
      case Ok(kind) => Assemble(kp, crypto, kind, sender, userSign, chain, e0)
  }

  /**
   * The middle of `Run`, once the kind bytes are built: the sponsor's coins are
   * queried, the payload is completed and serialised. `done` is the effects so far.
   */
  function Assemble(kp: Keypair, crypto: Crypto, kind: Bytes, sender: Address,
                    userSign: Bytes -> Result<Signature, string>, chain: Chain,
                    done: seq<Event>): Outcome
  {
    var sponsorAddress := crypto.address(kp);
    var e1 := done + [GetCoins(sponsorAddress, SuiCoinType)];
    match chain.getCoins(sponsorAddress, SuiCoinType)
    case Err(m) => Outcome(Err(Failed(m)), e1)
    case Ok(coins) =>
      if |coins| == 0 then Outcome(Err(NoGasCoins), e1)
      else
        var payload := Payload(kind, Some(sender), Some(sponsorAddress), Some(GasPayment(coins)));
        var e2 := e1 + [Build(payload)];
        match chain.build(payload)
        case Err(m) => Outcome(Err(Failed(m)), e2)
        case Ok(bytes) => SignAndSubmit(kp, crypto, bytes, userSign, chain, e2)
  }

  /**
   * The second half of `Run`, once the payload is serialised: the user signs,
   * then the sponsor, then the bytes are submitted. `done` is the effects so far.
   */
  function SignAndSubmit(kp: Keypair, crypto: Crypto, bytes: Bytes,
                         userSign: Bytes -> Result<Signature, string>, chain: Chain,
                         done: seq<Event>): Outcome
  {
    var e3 := done + [UserSign(bytes)];
    match userSign(bytes)
    case Err(m) => Outcome(Err(Failed(m)), e3)
    case Ok(userSignature) =>
      var signatures := [userSignature, crypto.sign(kp, bytes)];
      var e5 := e3 + [SponsorSign(crypto.address(kp), bytes), Execute(bytes, signatures)];
      match chain.execute(bytes, signatures)
      case Err(m) => Outcome(Err(Failed(m)), e5)
      case Ok(digest) => Outcome(Ok(digest), e5)
  }

  /** Signing and submitting after more effects only adds those effects in front. */
  lemma SignAndSubmitAfter(kp: Keypair, crypto: Crypto, bytes: Bytes,
                           userSign: Bytes -> Result<Signature, string>, chain: Chain,
                           before: seq<Event>, done: seq<Event>)
    ensures SignAndSubmit(kp, crypto, bytes, userSign, chain, before + done)
         == Outcome(SignAndSubmit(kp, crypto, bytes, userSign, chain, done).result,
                    before + SignAndSubmit(kp, crypto, bytes, userSign, chain, done).events)
  {
    var u := [UserSign(bytes)];
    assert before + done + u == before + (done + u);
    if userSign(bytes).Ok? {
      var t := [SponsorSign(crypto.address(kp), bytes), Execute(bytes, [userSign(bytes).value, crypto.sign(kp, bytes)])];
      assert before + done + u + t == before + (done + u + t);
    }
  }

  /** The position of each kind of effect in the protocol. */
  function StepOf(e: Event): nat
  {
    match e
    case BuildKind(_) => 0
    case GetCoins(_, _) => 1
    case Build(_) => 2
    case UserSign(_) => 3
    case SponsorSign(_, _) => 4
    case Execute(_, _) => 5
  }

  /** The error a logged effect's response carried, if it failed. */
  function StepError(e: Event, userSign: Bytes -> Result<Signature, string>, chain: Chain): Option<string>
  {
    var r: Result<(), string> :=
      match e
      case BuildKind(tx) => if chain.buildKind(tx).Err? then Err(chain.buildKind(tx).error) else Ok(())
      case GetCoins(a, t) => if chain.getCoins(a, t).Err? then Err(chain.getCoins(a, t).error) else Ok(())
      case Build(p) => if chain.build(p).Err? then Err(chain.build(p).error) else Ok(())
      case UserSign(b) => if userSign(b).Err? then Err(userSign(b).error) else Ok(())
      case SponsorSign(_, _) => Ok(())
      case Execute(b, s) => if chain.execute(b, s).Err? then Err(chain.execute(b, s).error) else Ok(());
    if r.Err? then Some(r.error) else None
  }

  /** The effect carries the serialised transaction bytes. */
  predicate CarriesBytes(e: Event)
  {
    e.UserSign? || e.SponsorSign? || e.Execute?
  }

  /** Without a sponsor keypair the call throws before any build, query, signature or execution. */
  lemma NoSponsorNoEffects(crypto: Crypto, tx: Transaction, sender: Address,
                           userSign: Bytes -> Result<Signature, string>, chain: Chain)
    ensures Run(None, crypto, tx, sender, userSign, chain) == Outcome(Err(SponsorNotConfigured), [])
  {
  }

  /**
   * The assembled payload names the caller as sender, the sponsor as gas owner
   * and the kind bytes of the caller's transaction.
   */
  lemma PayloadNamesSenderAndSponsor(kp: Keypair, crypto: Crypto, tx: Transaction, sender: Address,
                                     userSign: Bytes -> Result<Signature, string>, chain: Chain)
    ensures var o := Run(Some(kp), crypto, tx, sender, userSign, chain);
      forall e :: e in o.events && e.Build? ==>
        e.payload.sender == Some(sender) &&
        e.payload.gasOwner == Some(crypto.address(kp)) &&
        chain.buildKind(tx) == Ok(e.payload.kind)
  {
  }

  /**
   * The gas payment is the first at most ten of the coins the sponsor's query
   * returned, and is never empty.
   */
  lemma GasPaymentFromSponsorCoins(kp: Keypair, crypto: Crypto, tx: Transaction, sender: Address,
                                   userSign: Bytes -> Result<Signature, string>, chain: Chain)
    ensures var o := Run(Some(kp), crypto, tx, sender, userSign, chain);
      forall e :: e in o.events && e.Build? ==>
        var q := chain.getCoins(crypto.address(kp), SuiCoinType);
        q.Ok? && |q.value| > 0 && e.payload.gasPayment == Some(GasPayment(q.value)) &&
        0 < |e.payload.gasPayment.value| <= MaxGasCoins
  {
  }

  /** An empty coin list makes the call throw; neither party signs and nothing is executed. */
  lemma EmptyCoinsAbort(kp: Keypair, crypto: Crypto, tx: Transaction, sender: Address,
                        userSign: Bytes -> Result<Signature, string>, chain: Chain)
    requires chain.getCoins(crypto.address(kp), SuiCoinType) == Ok([])
    ensures var o := Run(Some(kp), crypto, tx, sender, userSign, chain);
      o.result.Err? &&
      (chain.buildKind(tx).Ok? ==> o.result == Err(NoGasCoins)) &&
      forall e :: e in o.events ==> !e.Build? && !CarriesBytes(e)
  {
  }

  /** Both signers and the submission see one and the same serialised bytes. */
  lemma OneSerialisation(kp: Keypair, crypto: Crypto, tx: Transaction, sender: Address,
                         userSign: Bytes -> Result<Signature, string>, chain: Chain)
    ensures var o := Run(Some(kp), crypto, tx, sender, userSign, chain);
      forall i, j ::
        (0 <= i < |o.events| && 0 <= j < |o.events| &&
         CarriesBytes(o.events[i]) && CarriesBytes(o.events[j])) ==>
          (o.events[i].bytes == o.events[j].bytes &&
           o.events[2].Build? && chain.build(o.events[2].payload) == Ok(o.events[i].bytes))
  {
  }

  /**
   * The submission carries the user's signature, then the sponsor's, both over
   * the submitted bytes; the sponsor signs with its own keypair.
   */
  lemma SignatureOrder(kp: Keypair, crypto: Crypto, tx: Transaction, sender: Address,
                       userSign: Bytes -> Result<Signature, string>, chain: Chain)
    ensures var o := Run(Some(kp), crypto, tx, sender, userSign, chain);
      forall e :: e in o.events && e.Execute? ==>
        userSign(e.bytes).Ok? &&
        e.signatures == [userSign(e.bytes).value, crypto.sign(kp, e.bytes)]
    ensures var o := Run(Some(kp), crypto, tx, sender, userSign, chain);
      forall e :: e in o.events && e.SponsorSign? ==> e.signer == crypto.address(kp)
  {
  }

  /**
   * The effects happen in protocol order, each at most once; a failing step is
   * the last one and its error is what the call throws; the call returns only
   * after a successful execution, and returns that execution's digest.
   */
  lemma StepsInOrder(sponsor: Option<Keypair>, crypto: Crypto, tx: Transaction, sender: Address,
                     userSign: Bytes -> Result<Signature, string>, chain: Chain)
    ensures var o := Run(sponsor, crypto, tx, sender, userSign, chain);
      forall i :: 0 <= i < |o.events| ==> StepOf(o.events[i]) == i
    ensures var o := Run(sponsor, crypto, tx, sender, userSign, chain);
      forall i :: 0 <= i < |o.events| - 1 ==> StepError(o.events[i], userSign, chain).None?
    ensures var o := Run(sponsor, crypto, tx, sender, userSign, chain);
      forall m :: o.result == Err(Failed(m)) ==>
        |o.events| > 0 && StepError(o.events[|o.events| - 1], userSign, chain) == Some(m)
    ensures var o := Run(sponsor, crypto, tx, sender, userSign, chain);
      o.result.Ok? <==>
        |o.events| == 6 && chain.execute(o.events[5].bytes, o.events[5].signatures).Ok?
    ensures var o := Run(sponsor, crypto, tx, sender, userSign, chain);
      o.result.Ok? ==> Ok(o.result.value) == chain.execute(o.events[5].bytes, o.events[5].signatures)
  {
  }

  /**
   * The message the call throws: its own two errors name their cause (a missing
   * keypair, an empty coin list), and any other error is the failing step's own
   * error passed on unchanged.
   */
  lemma ThrownMessages(sponsor: Option<Keypair>, crypto: Crypto, tx: Transaction, sender: Address,
                       userSign: Bytes -> Result<Signature, string>, chain: Chain)
    ensures var o := Run(sponsor, crypto, tx, sender, userSign, chain);
      o.result.Err? && !o.result.error.Failed? ==>
        (ErrorMessage(o.result.error) == NoSponsorMessage <==> sponsor.None?)
    ensures var o := Run(sponsor, crypto, tx, sender, userSign, chain);
      o.result.Err? && !o.result.error.Failed? && sponsor.Some? ==>
        ErrorMessage(o.result.error) == NoGasCoinsMessage &&
        chain.getCoins(crypto.address(sponsor.value), SuiCoinType) == Ok([])
    ensures var o := Run(sponsor, crypto, tx, sender, userSign, chain);
      o.result.Err? && o.result.error.Failed? ==>
        |o.events| > 0 &&
        StepError(o.events[|o.events| - 1], userSign, chain) == Some(ErrorMessage(o.result.error))
  {
  }

  /** A user who declines to sign stops the call: the sponsor does not sign, nothing is executed. */
  lemma UserRejectionAborts(kp: Keypair, crypto: Crypto, tx: Transaction, sender: Address,
                            userSign: Bytes -> Result<Signature, string>, chain: Chain)
    ensures var o := Run(Some(kp), crypto, tx, sender, userSign, chain);
      forall i :: 0 <= i < |o.events| && o.events[i].UserSign? && userSign(o.events[i].bytes).Err? ==>
        i == |o.events| - 1 && o.result == Err(Failed(userSign(o.events[i].bytes).error))
  {
  }

  /** The mutable transaction `Transaction.fromKind(kindBytes)` and its setters. */
  class SponsoredTx {
    const kind: Bytes
    var sender: Option<Address>
    var gasOwner: Option<Address>
    var gasPayment: Option<seq<ObjectRef>>

    constructor FromKind(kind: Bytes)
      ensures Data() == Payload(kind, None, None, None)
    {
      this.kind := kind;
      sender, gasOwner, gasPayment := None, None, None;
    }

    /** The draft as it stands. */
    function Data(): Payload
      reads this
    {
      Payload(kind, sender, gasOwner, gasPayment)
    }

    method SetSender(a: Address)
      modifies this
      ensures Data() == old(Data()).(sender := Some(a))
    {
      sender := Some(a);
    }

    method SetGasOwner(a: Address)
      modifies this
      ensures Data() == old(Data()).(gasOwner := Some(a))
    {
      gasOwner := Some(a);
    }

    method SetGasPayment(refs: seq<ObjectRef>)
      modifies this
      ensures Data() == old(Data()).(gasPayment := Some(refs))
    {
      gasPayment := Some(refs);
    }
  }

  /**
   * `GaslessTransactionProvider`: the sponsor keypair and enabled flag it was
   * given, the cryptographic collaborators, and a log of the external effects
   * of every `executeGaslessTransaction` call so far.
   */
  class Provider {
    const sponsorKeypair: Option<Keypair>
    const enabled: bool
    const crypto: Crypto
    var log: seq<Event>

    constructor (sponsorKeypair: Option<Keypair>, enabled: bool, crypto: Crypto)
      ensures this.sponsorKeypair == sponsorKeypair && this.enabled == enabled && this.crypto == crypto
      ensures log == []
    {
      this.sponsorKeypair := sponsorKeypair;
      this.enabled := enabled;
      this.crypto := crypto;
      log := [];
    }

    /** The context value `isGaslessEnabled`. */
    function IsGaslessEnabled(): (b: bool)
      ensures b <==> enabled && SponsorAddress().Some?
    {
      enabled && sponsorKeypair.Some?
    }

    /** The context value `sponsorAddress`: `undefined` without a keypair. */
    function SponsorAddress(): (a: Option<Address>)
      ensures a.None? <==> sponsorKeypair.None?
      ensures a.Some? ==> a.value == crypto.address(sponsorKeypair.value)
    {
      if sponsorKeypair.Some? then Some(crypto.address(sponsorKeypair.value)) else None
    }

    /**
     * `executeGaslessTransaction(transaction, sender, userSignTransaction)`,
     * with `chain` the responses the SDK and the network give during this call.
     */
    method ExecuteGaslessTransaction(transaction: Transaction, sender: Address,
                                     userSignTransaction: Bytes -> Result<Signature, string>, chain: Chain)
      returns (r: Result<Digest, GaslessError>)
      modifies this
      ensures var o := Run(sponsorKeypair, crypto, transaction, sender, userSignTransaction, chain);
        r == o.result && log == old(log) + o.events
    {
      ghost var o := Run(sponsorKeypair, crypto, transaction, sender, userSignTransaction, chain);
      ghost var log0 := log;
      if sponsorKeypair.None? {
        return Err(SponsorNotConfigured);
      }
      var keypair := sponsorKeypair.value;
      var sponsorAddress := crypto.address(keypair);

      log := log + [BuildKind(transaction)];
      var kindBytes := chain.buildKind(transaction);
      if kindBytes.Err? {
        assert o == Outcome(Err(Failed(kindBytes.error)), [BuildKind(transaction)]);
        return Err(Failed(kindBytes.error));
      }

      assert o == Assemble(keypair, crypto, kindBytes.value, sender, userSignTransaction, chain, [BuildKind(transaction)]);
      var sponsoredTx := new SponsoredTx.FromKind(kindBytes.value);
      sponsoredTx.SetSender(sender);
      sponsoredTx.SetGasOwner(sponsorAddress);

      ghost var e1 := [BuildKind(transaction), GetCoins(sponsorAddress, SuiCoinType)];
      log := log + [GetCoins(sponsorAddress, SuiCoinType)];
      assert log == log0 + e1;
      var coins := chain.getCoins(sponsorAddress, SuiCoinType);
      if coins.Err? {
        assert o == Outcome(Err(Failed(coins.error)), e1);
        return Err(Failed(coins.error));
      }
      if |coins.value| == 0 {
        assert o == Outcome(Err(NoGasCoins), e1);
        return Err(NoGasCoins);
      }
      sponsoredTx.SetGasPayment(GasPayment(coins.value));

      var payload := sponsoredTx.Data();
      assert payload == Payload(kindBytes.value, Some(sender), Some(sponsorAddress), Some(GasPayment(coins.value)));
      ghost var e2 := e1 + [Build(payload)];
      log := log + [Build(payload)];
      assert log == log0 + e2;
      var transactionBytes := chain.build(payload);
      if transactionBytes.Err? {
        assert o == Outcome(Err(Failed(transactionBytes.error)), e2);
        return Err(Failed(transactionBytes.error));
      }
      var bytes := transactionBytes.value;
      assert o == SignAndSubmit(keypair, crypto, bytes, userSignTransaction, chain, e2);
      SignAndSubmitAfter(keypair, crypto, bytes, userSignTransaction, chain, log0, e2);
      r := SignAndSubmitStep(keypair, bytes, userSignTransaction, chain);
    }

    /**
     * The signing and submission steps of `executeGaslessTransaction`: the user
     * signs the bytes, then the sponsor, then both signatures are submitted.
     */
    method SignAndSubmitStep(keypair: Keypair, bytes: Bytes,
                             userSignTransaction: Bytes -> Result<Signature, string>, chain: Chain)
      returns (r: Result<Digest, GaslessError>)
      modifies this
      ensures var o := SignAndSubmit(keypair, crypto, bytes, userSignTransaction, chain, old(log));
        r == o.result && log == o.events
    {
      log := log + [UserSign(bytes)];
      var userSignature := userSignTransaction(bytes);
      if userSignature.Err? {
        return Err(Failed(userSignature.error));
      }
      log := log + [SponsorSign(crypto.address(keypair), bytes)];
      var sponsorSignature := crypto.sign(keypair, bytes);

      var signatures := [userSignature.value, sponsorSignature];
      log := log + [Execute(bytes, signatures)];
      var result := chain.execute(bytes, signatures);
      if result.Err? {
        return Err(Failed(result.error));
      }
      return Ok(result.value);
    }
  }

  /**
   * `isGaslessEnabled` holds when the provider is enabled and has a keypair; when it holds, a call
   * gets past the missing-sponsor check.
   */
  lemma EnabledMeansSponsorPresent(p: Provider, tx: Transaction, sender: Address,
                                   userSign: Bytes -> Result<Signature, string>, chain: Chain)
    ensures p.IsGaslessEnabled() <==> p.enabled && p.sponsorKeypair.Some?
    ensures p.IsGaslessEnabled() ==>
      Run(p.sponsorKeypair, p.crypto, tx, sender, userSign, chain).result != Err(SponsorNotConfigured)
  {
  }

  /**
   * `sponsorAddress` is undefined exactly when there is no keypair, and
   * otherwise it is the gas owner of every payload the provider assembles.
   */
  lemma SponsorAddressIsGasOwner(p: Provider, tx: Transaction, sender: Address,
                                 userSign: Bytes -> Result<Signature, string>, chain: Chain)
    ensures p.SponsorAddress().None? <==> p.sponsorKeypair.None?
    ensures var o := Run(p.sponsorKeypair, p.crypto, tx, sender, userSign, chain);
      forall e :: e in o.events && e.Build? ==> e.payload.gasOwner == p.SponsorAddress()
  {
  }
}
