/** Token creation (Token.js): the metadata form, the defaulting of the
    economic parameters, the trade request body, the status check and the
    two signatures, in that order.

    The network, the key decoding and the signing are collaborators passed in
    as a `Collaborators` value; a `TokenCreator` records every call it makes
    to them in `trace`, so that the order of the calls and the data that
    flows into each one can be stated. */
module Token {
  import opened Wrappers

  type Bytes = seq<bv8>

  /** A signing identity: its base58 public key and its secret key. */
  datatype Keypair = Keypair(publicKey: string, secretKey: Bytes)

  /** A value appended to a multipart form: the image file (absent when the
      caller supplied none) or a text field. */
  datatype FormValue = File(blob: Option<Bytes>) | Text(text: string)

  datatype FormEntry = FormEntry(key: string, value: FormValue)

  /** The `params` object handed to `createToken`. JavaScript numbers are
      `Option<real>`: `None` stands for NaN or a missing property. */
  datatype TokenParams = TokenParams(
    imageFile: Option<Bytes>,
    name: string,
    symbol: string,
    description: string,
    twitter: string,
    telegram: string,
    website: string,
    publicKey: string,
    mintPrivateKey: Option<string>,
    amount: Option<real>,
    slippage: Option<real>,
    priorityFee: Option<real>)

  /** The parts of the metadata service's JSON reply that are read:
      `metadata.name`, `metadata.symbol` and `metadataUri`. */
  datatype MetadataResponse = MetadataResponse(name: string, symbol: string, metadataUri: string)

  datatype TokenMetadata = TokenMetadata(name: string, symbol: string, uri: string)

  /** The `config` object handed to `createTokenTransaction`. */
  datatype TransactionConfig = TransactionConfig(
    publicKey: string,
    tokenMetadata: TokenMetadata,
    amount: real,
    slippage: real,
    priorityFee: real,
    mintPrivateKey: Option<string>)

  /** The JSON body posted to the trade relay. */
  datatype TradeRequest = TradeRequest(
    publicKey: string,
    action: string,
    tokenMetadata: TokenMetadata,
    mint: string,
    denominatedInSol: string,
    amount: real,
    slippage: real,
    priorityFee: real,
    pool: string)

  datatype Response = Response(status: int, statusText: string, body: Bytes)

  /** A serialized versioned transaction, as the relay returns it and as the
      signing collaborator gives it back. */
  datatype Transaction = Transaction(bytes: Bytes)

  /** The code outside the model, each piece as a function of its inputs;
      a `Failure` is the error it throws.
      - `fromSecretKey`: `Keypair.fromSecretKey(bs58.decode(key))`;
      - `uploadMetadata`: the POST to https://pump.fun/api/ipfs and the
        reading of its JSON reply;
      - `tradeLocal`: the POST to https://pumpportal.fun/api/trade-local;
      - `deserialize`: `VersionedTransaction.deserialize`;
      - `sign`: `tx.sign(signers)`, which yields the signed transaction;
      - `sendTransaction`: `Connection.sendTransaction`, which yields the
        signature. */
  datatype Collaborators = Collaborators(
    fromSecretKey: string -> Result<Keypair>,
    uploadMetadata: seq<FormEntry> -> Result<MetadataResponse>,
    tradeLocal: TradeRequest -> Result<Response>,
    deserialize: Bytes -> Result<Transaction>,
    sign: (Transaction, seq<Keypair>) -> Result<Transaction>,
    sendTransaction: Transaction -> Result<string>)

  /** One call to a collaborator that leaves the process or uses a secret. */
  datatype Event =
    | MetadataUploaded(form: seq<FormEntry>)
    | TradeRequested(request: TradeRequest)
    | Signed(transaction: Transaction, signers: seq<Keypair>)
    | Sent(transaction: Transaction)

  /** What one operation returns and the calls it makes, in order. */
  datatype Run = Run(result: Result<string>, events: seq<Event>)

  const SolscanPrefix := "https://solscan.io/tx/"
  const CreationFailedPrefix := "Token creation failed: "
  const TradeFailedPrefix := "Transaction creation failed: "
  /** The message bs58 throws when asked to decode `undefined`. */
  const UndefinedKeyMessage := "Expected String"

  const MetadataKeys := ["file", "name", "symbol", "description", "twitter", "telegram", "website", "showName"]

  /** The form built by `createMetadataForm`. */
  function MetadataForm(m: TokenParams): (form: seq<FormEntry>)
    ensures |form| == |MetadataKeys|
    ensures forall i :: 0 <= i < |form| ==> form[i].key == MetadataKeys[i]
  {
    [ FormEntry("file", File(m.imageFile)),
      FormEntry("name", Text(m.name)),
      FormEntry("symbol", Text(m.symbol)),
      FormEntry("description", Text(m.description)),
      FormEntry("twitter", Text(m.twitter)),
      FormEntry("telegram", Text(m.telegram)),
      FormEntry("website", Text(m.website)),
      FormEntry("showName", Text("true")) ]
  }

  /** What a reader of the multipart form finds under `key`: the value of
      the first entry with that key. */
  function FormGet(form: seq<FormEntry>, key: string): (v: Option<FormValue>)
    ensures v.None? <==> forall i :: 0 <= i < |form| ==> form[i].key != key
  {
    if |form| == 0 then None
    else if form[0].key == key then Some(form[0].value)
    else FormGet(form[1..], key)
  }

  /** JavaScript's `x || d` for a number `x`: NaN, a missing value and 0 are
      falsy and give `d`. */
  function OrDefault(x: Option<real>, d: real): (r: real)
    ensures x.Some? && x.value != 0.0 ==> r == x.value
    ensures x.None? || x.value == 0.0 ==> r == d
  {
    if x.Some? && x.value != 0.0 then x.value else d
  }

  /** The `config` that `createToken` assembles from its parameters and the
      metadata service's reply. */
  function TransactionConfigOf(params: TokenParams, reply: MetadataResponse): (c: TransactionConfig)
    ensures c.publicKey == params.publicKey && c.mintPrivateKey == params.mintPrivateKey
    ensures c.tokenMetadata == TokenMetadata(reply.name, reply.symbol, reply.metadataUri)
    ensures c.amount == OrDefault(params.amount, 0.0)
    ensures c.slippage == OrDefault(params.slippage, 10.0)
    ensures c.priorityFee == OrDefault(params.priorityFee, 0.0005)
  {
    TransactionConfig(
      params.publicKey,
      TokenMetadata(reply.name, reply.symbol, reply.metadataUri),
      OrDefault(params.amount, 0.0),
      OrDefault(params.slippage, 10.0),
      OrDefault(params.priorityFee, 0.0005),
      params.mintPrivateKey)
  }

  /** The request body of `createTokenTransaction`. */
  function TradeBody(config: TransactionConfig, mint: Keypair): (r: TradeRequest)
    ensures r.action == "create" && r.denominatedInSol == "true" && r.pool == "pump"
    ensures r.mint == mint.publicKey
    ensures r.publicKey == config.publicKey && r.tokenMetadata == config.tokenMetadata
    ensures r.amount == config.amount && r.slippage == config.slippage && r.priorityFee == config.priorityFee
  {
    TradeRequest(
      config.publicKey, "create", config.tokenMetadata, mint.publicKey, "true",
      config.amount, config.slippage, config.priorityFee, "pump")
  }

  /** The mint key pair decoded from `config.mintPrivateKey`. */
  function MintKeypair(env: Collaborators, key: Option<string>): (r: Result<Keypair>)
    ensures key.None? ==> r == Failure(UndefinedKeyMessage)
    ensures key.Some? ==> r == env.fromSecretKey(key.value)
  {
    match key
    case None => Failure(UndefinedKeyMessage)
    case Some(k) => env.fromSecretKey(k)
  }

  /** `createTokenTransaction(config)` for a creator whose own key pair is
      `signer`: the signature it returns (or the error it throws) and the
      collaborator calls it makes. */
  function TransactionRun(env: Collaborators, signer: Keypair, config: TransactionConfig): (run: Run)
    ensures |run.events| <= 3
    ensures run.result.Success? ==>
      |run.events| == 3 && run.events[2].Sent? && run.result == env.sendTransaction(run.events[2].transaction)
  {
    match MintKeypair(env, config.mintPrivateKey)
    case Failure(e) => Run(Failure(e), [])
    case Success(mint) =>
      var body := TradeBody(config, mint);
      var requested := [TradeRequested(body)];
      match env.tradeLocal(body)
      case Failure(e) => Run(Failure(e), requested)
      case Success(response) =>
        if response.status != 200 then
          Run(Failure(TradeFailedPrefix + response.statusText), requested)
        else
          match env.deserialize(response.body)
          case Failure(e) => Run(Failure(e), requested)
          case Success(tx) =>
            var signed := requested + [Signed(tx, [mint, signer])];
            match env.sign(tx, [mint, signer])
            case Failure(e) => Run(Failure(e), signed)
            case Success(signedTx) => Run(env.sendTransaction(signedTx), signed + [Sent(signedTx)])
  }

  /** `createToken(params)`: the transaction URL it returns (or the error it
      throws) and the collaborator calls it makes. */
  function CreateTokenRun(env: Collaborators, signer: Keypair, params: TokenParams): (run: Run)
    ensures 1 <= |run.events| <= 4 && run.events[0] == MetadataUploaded(MetadataForm(params))
    ensures run.result.Success? ==>
      |SolscanPrefix| <= |run.result.value| && run.result.value[..|SolscanPrefix|] == SolscanPrefix
  {
    var form := MetadataForm(params);
    var uploaded := [MetadataUploaded(form)];
    match env.uploadMetadata(form)
    case Failure(e) => Run(Failure(CreationFailedPrefix + e), uploaded)
    case Success(reply) =>
      var tx := TransactionRun(env, signer, TransactionConfigOf(params, reply));
      var result := match tx.result
        case Success(signature) => Success(SolscanPrefix + signature)
        case Failure(e) => Failure(CreationFailedPrefix + e);
      Run(result, uploaded + tx.events)
  }

  class TokenCreator {
    /** The RPC endpoint of the `Connection`. */
    const rpcEndpoint: string
    /** The operator's key pair, decoded from the private key. */
    const signerKeyPair: Keypair
    const env: Collaborators
    /** The collaborator calls made so far, oldest first. */
    var trace: seq<Event>

    constructor (rpcEndpoint: string, signerKeyPair: Keypair, env: Collaborators)
      ensures this.rpcEndpoint == rpcEndpoint && this.signerKeyPair == signerKeyPair && this.env == env
      ensures trace == []
    {
      this.rpcEndpoint := rpcEndpoint;
      this.signerKeyPair := signerKeyPair;
      this.env := env;
      trace := [];
    }

    /** `new TokenCreator(rpcEndpoint, privateKey)`: fails with the decoder's
        error when the private key does not decode. */
    static method Open(rpcEndpoint: string, privateKey: string, env: Collaborators) returns (r: Result<TokenCreator>)
      ensures r.Failure? <==> env.fromSecretKey(privateKey).Failure?
      ensures r.Failure? ==> r.error == env.fromSecretKey(privateKey).error
      ensures r.Success? ==> fresh(r.value) && r.value.trace == [] && r.value.env == env
      ensures r.Success? ==> r.value.signerKeyPair == env.fromSecretKey(privateKey).value
      ensures r.Success? ==> r.value.rpcEndpoint == rpcEndpoint
    {
      var key := env.fromSecretKey(privateKey);
      if key.Failure? {
        return Failure(key.error);
      }
      var creator := new TokenCreator(rpcEndpoint, key.value, env);
      return Success(creator);
    }

    /** `createMetadataForm`: appends the eight fields one by one. */
    method CreateMetadataForm(metadata: TokenParams) returns (form: seq<FormEntry>)
      ensures form == MetadataForm(metadata)
    {
      form := [];
      form := form + [FormEntry("file", File(metadata.imageFile))];
      form := form + [FormEntry("name", Text(metadata.name))];
      form := form + [FormEntry("symbol", Text(metadata.symbol))];
      form := form + [FormEntry("description", Text(metadata.description))];
      form := form + [FormEntry("twitter", Text(metadata.twitter))];
      form := form + [FormEntry("telegram", Text(metadata.telegram))];
      form := form + [FormEntry("website", Text(metadata.website))];
      form := form + [FormEntry("showName", Text("true"))];
    }

    /** `uploadMetadata`: one POST of the form. */
    method UploadMetadata(form: seq<FormEntry>) returns (reply: Result<MetadataResponse>)
      modifies this
      ensures trace == old(trace) + [MetadataUploaded(form)]
      ensures reply == env.uploadMetadata(form)
    {
      trace := trace + [MetadataUploaded(form)];
      reply := env.uploadMetadata(form);
    }

    /** `createTokenTransaction`: decode the mint key, request the
        transaction, check the status, sign with both keys, send. */
    method CreateTokenTransaction(config: TransactionConfig) returns (signature: Result<string>)
      modifies this
      ensures signature == TransactionRun(env, signerKeyPair, config).result
      ensures trace == old(trace) + TransactionRun(env, signerKeyPair, config).events
    {
      var mintKeypair := MintKeypair(env, config.mintPrivateKey);
      if mintKeypair.Failure? {
        return Failure(mintKeypair.error);
      }
      var body := TradeBody(config, mintKeypair.value);
      trace := trace + [TradeRequested(body)];
      var response := env.tradeLocal(body);
      if response.Failure? {
        return Failure(response.error);
      }
      if response.value.status != 200 {
        return Failure(TradeFailedPrefix + response.value.statusText);
      }
      var tx := env.deserialize(response.value.body);
      if tx.Failure? {
        return Failure(tx.error);
      }
      var signers := [mintKeypair.value, signerKeyPair];
      trace := trace + [Signed(tx.value, signers)];
      var signedTx := env.sign(tx.value, signers);
      if signedTx.Failure? {
        return Failure(signedTx.error);
      }
      trace := trace + [Sent(signedTx.value)];
      signature := env.sendTransaction(signedTx.value);
    }

    /** `createToken`: upload the metadata, then create and send the
        transaction; every error is rethrown with a common prefix. */
    method CreateToken(params: TokenParams) returns (url: Result<string>)
      modifies this
      ensures url == CreateTokenRun(env, signerKeyPair, params).result
      ensures trace == old(trace) + CreateTokenRun(env, signerKeyPair, params).events
    {
      var metadataForm := CreateMetadataForm(params);
      var reply := UploadMetadata(metadataForm);
      if reply.Failure? {
        return Failure(CreationFailedPrefix + reply.error);
      }
      var config := TransactionConfigOf(params, reply.value);
      var signature := CreateTokenTransaction(config);
      if signature.Failure? {
        return Failure(CreationFailedPrefix + signature.error);
      }
      url := Success(SolscanPrefix + signature.value);
    }
  }

  /** The form holds each parameter under its own key, the image under
      "file", and "showName" set to "true". */
  lemma MetadataFormFields(m: TokenParams)
    ensures var form := MetadataForm(m);
      && FormGet(form, "file") == Some(File(m.imageFile))
      && FormGet(form, "name") == Some(Text(m.name))
      && FormGet(form, "symbol") == Some(Text(m.symbol))
      && FormGet(form, "description") == Some(Text(m.description))
      && FormGet(form, "twitter") == Some(Text(m.twitter))
      && FormGet(form, "telegram") == Some(Text(m.telegram))
      && FormGet(form, "website") == Some(Text(m.website))
      && FormGet(form, "showName") == Some(Text("true"))
  {
    var form := MetadataForm(m);
    assert FormGet(form, "file") == Some(File(m.imageFile)) by { MetadataFormEntry(m, 0); }
    assert FormGet(form, "name") == Some(Text(m.name)) by { MetadataFormEntry(m, 1); }
    assert FormGet(form, "symbol") == Some(Text(m.symbol)) by { MetadataFormEntry(m, 2); }
    assert FormGet(form, "description") == Some(Text(m.description)) by { MetadataFormEntry(m, 3); }
    assert FormGet(form, "twitter") == Some(Text(m.twitter)) by { MetadataFormEntry(m, 4); }
    assert FormGet(form, "telegram") == Some(Text(m.telegram)) by { MetadataFormEntry(m, 5); }
    assert FormGet(form, "website") == Some(Text(m.website)) by { MetadataFormEntry(m, 6); }
    assert FormGet(form, "showName") == Some(Text("true")) by { MetadataFormEntry(m, 7); }
  }

  lemma MetadataFormEntry(m: TokenParams, k: nat)
    requires k < |MetadataKeys|
    ensures FormGet(MetadataForm(m), MetadataKeys[k]) == Some(MetadataForm(m)[k].value)
  {
    var form := MetadataForm(m);
    assert forall j :: 0 <= j < k ==> form[j].key != form[k].key;
    FormGetFirst(form, k);
  }

  /** `FormGet` finds the first entry with a key. */
  lemma {:induction false} FormGetFirst(form: seq<FormEntry>, k: nat)
    requires k < |form|
    requires forall j :: 0 <= j < k ==> form[j].key != form[k].key
    ensures FormGet(form, form[k].key) == Some(form[k].value)
  {
    if k > 0 {
      FormGetFirst(form[1..], k - 1);
    }
  }

  /** Falsy economic parameters take their defaults (amount 0, slippage 10,
      priority fee 0.0005), an explicit 0 included; any other value is kept.
      Public key, metadata and mint key pass through. */
  lemma EconomicDefaults(params: TokenParams, reply: MetadataResponse)
    ensures var config := TransactionConfigOf(params, reply);
      && (params.amount in {None, Some(0.0)} ==> config.amount == 0.0)
      && (params.slippage in {None, Some(0.0)} ==> config.slippage == 10.0)
      && (params.priorityFee in {None, Some(0.0)} ==> config.priorityFee == 0.0005)
      && (params.amount.Some? ==> config.amount == params.amount.value)
      && (params.slippage.Some? && params.slippage.value != 0.0 ==> config.slippage == params.slippage.value)
      && (params.priorityFee.Some? && params.priorityFee.value != 0.0 ==> config.priorityFee == params.priorityFee.value)
      && config.publicKey == params.publicKey
      && config.mintPrivateKey == params.mintPrivateKey
      && config.tokenMetadata == TokenMetadata(reply.name, reply.symbol, reply.metadataUri)
  {
  }

  /** The metadata upload is the first call and happens once; when it fails
      nothing else is called. When the relay is asked at all, it is asked
      second, and with the name, symbol and URI from the upload's reply. */
  lemma UploadPrecedesRequest(env: Collaborators, signer: Keypair, params: TokenParams)
    ensures var run := CreateTokenRun(env, signer, params);
      && |run.events| >= 1
      && run.events[0] == MetadataUploaded(MetadataForm(params))
      && (forall i :: 1 <= i < |run.events| ==> !run.events[i].MetadataUploaded?)
      && (env.uploadMetadata(MetadataForm(params)).Failure? ==> |run.events| == 1)
      && (forall i :: 0 <= i < |run.events| && run.events[i].TradeRequested? ==>
            && i == 1
            && env.uploadMetadata(MetadataForm(params)).Success?
            && var reply := env.uploadMetadata(MetadataForm(params)).value;
               run.events[i].request.tokenMetadata == TokenMetadata(reply.name, reply.symbol, reply.metadataUri))
  {
  }

  /** The relay is asked with the fixed action, denomination and pool, the
      mint's public key, and the config's key, metadata and amounts
      unchanged. */
  lemma RequestBodyFields(env: Collaborators, signer: Keypair, config: TransactionConfig)
    ensures var run := TransactionRun(env, signer, config);
      forall i :: 0 <= i < |run.events| && run.events[i].TradeRequested? ==>
        && MintKeypair(env, config.mintPrivateKey).Success?
        && var body := run.events[i].request;
        && body.action == "create" && body.denominatedInSol == "true" && body.pool == "pump"
        && body.mint == MintKeypair(env, config.mintPrivateKey).value.publicKey
        && body.publicKey == config.publicKey
        && body.tokenMetadata == config.tokenMetadata
        && body.amount == config.amount
        && body.slippage == config.slippage
        && body.priorityFee == config.priorityFee
  {
  }

  /** A relay status other than 200 fails with the status text, after the
      request and before any signing or sending. */
  lemma NonOkStatusAborts(env: Collaborators, signer: Keypair, config: TransactionConfig, mint: Keypair, response: Response)
    requires MintKeypair(env, config.mintPrivateKey) == Success(mint)
    requires env.tradeLocal(TradeBody(config, mint)) == Success(response)
    requires response.status != 200
    ensures TransactionRun(env, signer, config)
         == Run(Failure(TradeFailedPrefix + response.statusText), [TradeRequested(TradeBody(config, mint))])
  {
  }

  /** Signing, when it happens, is the second call, uses the mint key pair
      and then the creator's, in that order, and is the only way to reach the
      third call, which sends exactly what signing produced. */
  lemma SignedBeforeSent(env: Collaborators, signer: Keypair, config: TransactionConfig)
    ensures var run := TransactionRun(env, signer, config);
      && |run.events| <= 3
      && (forall i :: 0 <= i < |run.events| && run.events[i].Signed? ==>
            && i == 1
            && MintKeypair(env, config.mintPrivateKey).Success?
            && run.events[i].signers == [MintKeypair(env, config.mintPrivateKey).value, signer])
      && (forall i :: 0 <= i < |run.events| && run.events[i].Sent? ==>
            && i == 2
            && run.events[1].Signed?
            && env.sign(run.events[1].transaction, run.events[1].signers) == Success(run.events[i].transaction))
      && (forall i :: 0 <= i < |run.events| && run.events[i].Signed? ==>
            var mint := MintKeypair(env, config.mintPrivateKey).value;
            && env.tradeLocal(TradeBody(config, mint)).Success?
            && env.deserialize(env.tradeLocal(TradeBody(config, mint)).value.body).Success?
            && run.events[i].transaction == env.deserialize(env.tradeLocal(TradeBody(config, mint)).value.body).value)
  {
  }

  /** `createToken` succeeds exactly when the transaction was sent and the
      network returned a signature, and then returns the Solscan URL of that
      signature. Every failure is "Token creation failed: " followed by the
      message of the step that failed: the upload's, or else the one
      `createTokenTransaction` raised. */
  lemma CreateTokenOutcome(env: Collaborators, signer: Keypair, params: TokenParams)
    ensures var run := CreateTokenRun(env, signer, params);
      && (run.result.Success? <==>
            |run.events| == 4 && run.events[3].Sent? && env.sendTransaction(run.events[3].transaction).Success?)
      && (run.result.Success? ==>
            run.result.value == SolscanPrefix + env.sendTransaction(run.events[3].transaction).value)
      && (run.result.Failure? ==>
            |CreationFailedPrefix| <= |run.result.error|
            && run.result.error[..|CreationFailedPrefix|] == CreationFailedPrefix)
      && (env.uploadMetadata(MetadataForm(params)).Failure? ==>
            run.result.error == CreationFailedPrefix + env.uploadMetadata(MetadataForm(params)).error)
      && (env.uploadMetadata(MetadataForm(params)).Success? && run.result.Failure? ==>
            var config := TransactionConfigOf(params, env.uploadMetadata(MetadataForm(params)).value);
            run.result.error == CreationFailedPrefix + TransactionRun(env, signer, config).result.error)
  {
    var run := CreateTokenRun(env, signer, params);
    var form := MetadataForm(params);
    match env.uploadMetadata(form)
    case Failure(e) =>
    case Success(reply) =>
      var tx := TransactionRun(env, signer, TransactionConfigOf(params, reply));
      SignedBeforeSent(env, signer, TransactionConfigOf(params, reply));
      assert run.events == [MetadataUploaded(form)] + tx.events;
  }
}
