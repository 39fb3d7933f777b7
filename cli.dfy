/** The stateable rules of the command-line front end (cli.js): the wallet
    prompt validators, the shuffle of the image paths, the selection of the
    images that loaded, the `--network` guard of `deploy-token`, and the
    parameters it hands to `createToken`. */
module Cli {
  import opened Wrappers
  import Token

  /** What an inquirer validator returns: `true`, or the message to show. */
  datatype Validation = Accepted | Rejected(message: string)

  /** The public-key prompt: between 32 and 44 characters. */
  function ValidatePublicKey(input: string): (v: Validation)
    ensures v == Accepted <==> 32 <= |input| <= 44
    ensures v.Rejected? ==> v.message != []
  {
    if |input| < 32 then Rejected("Public key must be at least 32 characters")
    else if |input| > 44 then Rejected("Public key must be less than 44 characters")
    else Accepted
  }

  /** The private-key prompt: between 64 and 88 characters. */
  function ValidatePrivateKey(input: string): (v: Validation)
    ensures v == Accepted <==> 64 <= |input| <= 88
    ensures v.Rejected? ==> v.message != []
  {
    if |input| < 64 then Rejected("Private key must be at least 64 characters")
    else if |input| > 88 then Rejected("Private key must be less than 88 characters")
    else Accepted
  }

  /** The initial-buy prompt, on the number inquirer parsed (`None` for NaN):
      a number in (0, 100]. */
  function ValidateInitialBuy(input: Option<real>): (v: Validation)
    ensures v == Accepted <==> input.Some? && 0.0 < input.value <= 100.0
    ensures input.None? ==> v == Rejected("Please enter a valid number")
  {
    match input
    case None => Rejected("Please enter a valid number")
    case Some(x) =>
      if x <= 0.0 then Rejected("Amount must be greater than 0")
      else if x > 100.0 then Rejected("Amount must be less than or equal to 100")
      else Accepted
  }

  /** The sequence with positions `i` and `j` exchanged. */
  function Swap<T>(s: seq<T>, i: nat, j: nat): (r: seq<T>)
    requires i < |s| && j < |s|
    ensures |r| == |s| && r[i] == s[j] && r[j] == s[i]
    ensures forall k :: 0 <= k < |s| && k != i && k != j ==> r[k] == s[k]
  {
    s[i := s[j]][j := s[i]]
  }

  /** Random draws fit for a Fisher-Yates shuffle of `n` elements: the draw
      for position `k` is an index in [0, k], as `randomInt(0, k + 1)`
      gives. */
  predicate FitDraws(draws: seq<nat>, n: nat) {
    |draws| == n && forall k :: 0 <= k < n ==> draws[k] <= k
  }

  /** Fisher-Yates from position `i` down to 1: position `k` is exchanged
      with position `draws[k]`. */
  function Shuffled<T>(s: seq<T>, draws: seq<nat>, i: int): (r: seq<T>)
    requires FitDraws(draws, |s|) && i < |s|
    ensures |r| == |s|
    decreases i
  {
    if i <= 0 then s else Shuffled(Swap(s, i, draws[i]), draws, i - 1)
  }

  lemma SwapPermutes<T>(s: seq<T>, i: nat, j: nat)
    requires i < |s| && j < |s|
    ensures multiset(Swap(s, i, j)) == multiset(s)
  {
    if i != j {
      var t := s[i := s[j]];
      assert multiset(t) == multiset(s) - multiset{s[i]} + multiset{s[j]};
      assert multiset(t[j := s[i]]) == multiset(t) - multiset{s[j]} + multiset{s[i]};
    }
  }

  /** Shuffling keeps the length and the multiset of elements. */
  lemma {:induction false} ShuffledPermutes<T>(s: seq<T>, draws: seq<nat>, i: int)
    requires FitDraws(draws, |s|) && i < |s|
    ensures |Shuffled(s, draws, i)| == |s|
    ensures multiset(Shuffled(s, draws, i)) == multiset(s)
    decreases i
  {
    if i > 0 {
      SwapPermutes(s, i, draws[i]);
      ShuffledPermutes(Swap(s, i, draws[i]), draws, i - 1);
    }
  }

  /** `shuffleArray(array)`: swaps the elements of a copy in place, from the
      last position down to 1, and returns the copy; `draws` stands for the
      calls to `randomInt`. The result is a permutation of the input, which
      itself is left as it was. */
  method ShuffleArray<T>(items: seq<T>, draws: seq<nat>) returns (shuffled: seq<T>)
    requires FitDraws(draws, |items|)
    ensures shuffled == Shuffled(items, draws, |items| - 1)
    ensures |shuffled| == |items| && multiset(shuffled) == multiset(items)
  {
    var copy := new T[|items|](k requires 0 <= k < |items| => items[k]);
    assert copy[..] == items;
    var i := copy.Length - 1;
    while i > 0
      invariant -1 <= i < copy.Length
      invariant Shuffled(copy[..], draws, i) == Shuffled(items, draws, |items| - 1)
    {
      var j := draws[i];
      ghost var before := copy[..];
      copy[i], copy[j] := copy[j], copy[i];
      assert copy[..] == Swap(before, i, j);
      i := i - 1;
    }
    shuffled := copy[..];
    ShuffledPermutes(items, draws, |items| - 1);
  }

  /** `results.filter((img) => img !== null)`. */
  function Present<T(!new)>(results: seq<Option<T>>): (r: seq<T>)
    ensures |r| <= |results|
    ensures forall k :: 0 <= k < |r| ==> Some(r[k]) in results
    ensures forall k :: 0 <= k < |results| && results[k].Some? ==> results[k].value in r
    ensures forall x :: multiset(r)[x] == multiset(results)[Some(x)]
  {
    if |results| == 0 then []
    else
      var rest := Present(results[1..]);
      assert forall k :: 1 <= k < |results| ==> results[k] == results[1..][k - 1];
      assert results == [results[0]] + results[1..];
      assert multiset(results) == multiset{results[0]} + multiset(results[1..]);
      match results[0]
      case Some(x) => [x] + rest
      case None => rest
  }

  /** The filter keeps order: filtering a concatenation concatenates the
      filtered parts. */
  lemma {:induction false} PresentAppend<T(!new)>(a: seq<Option<T>>, b: seq<Option<T>>)
    ensures Present(a + b) == Present(a) + Present(b)
  {
    if |a| == 0 {
      assert a + b == b;
    } else {
      assert (a + b)[1..] == a[1..] + b;
      PresentAppend(a[1..], b);
    }
  }

  const NoValidImagesMessage := "No valid images found. Please ensure images exist and are in correct format."

  /** The images that loaded (failed loads are `None`), in order; an error
      when none did. */
  function ValidImages<T(!new)>(results: seq<Option<T>>): (r: Result<seq<T>>)
    ensures r.Success? <==> exists i :: 0 <= i < |results| && results[i].Some?
    ensures r.Success? ==> r.value == Present(results) && |r.value| > 0
    ensures r.Failure? ==> r.error == NoValidImagesMessage
  {
    var valid := Present(results);
    if |valid| == 0 then Failure(NoValidImagesMessage)
    else
      assert Some(valid[0]) in results;
      Success(valid)
  }

  /** How the `deploy-token` action starts. */
  datatype GuardOutcome = Proceed | Exit(message: string, status: int)

  const UnsupportedNetworkMessage := "\U{1F6AB} Only Solana network is supported"

  /** The `--network` guard: anything but "solana" (a missing option
      included) ends the process with status 1 before any token work. */
  function NetworkGuard(network: Option<string>): (g: GuardOutcome)
    ensures g == Proceed <==> network == Some("solana")
    ensures g.Exit? ==> g == Exit(UnsupportedNetworkMessage, 1)
  {
    if network != Some("solana") then Exit(UnsupportedNetworkMessage, 1) else Proceed
  }

  /** The token parameters returned by the generation service. */
  datatype GeneratedToken = GeneratedToken(
    name: string, symbol: string, description: string, website: string,
    publicKey: string, privateKey: string)

  /** The answers to the wallet prompts. */
  datatype WalletInfo = WalletInfo(publicKey: string, privateKey: string, initialBuy: Option<real>)

  /** The parameters `deploy-token` passes to `createToken`. */
  function DeployParams(generated: GeneratedToken, wallet: WalletInfo, imageFile: Token.Bytes): (p: Token.TokenParams)
    ensures p.imageFile == Some(imageFile)
    ensures p.name == generated.name && p.symbol == generated.symbol
    ensures p.description == generated.description && p.website == generated.website
    ensures p.twitter == "" && p.telegram == ""
    ensures p.publicKey == wallet.publicKey && p.mintPrivateKey == Some(generated.privateKey)
    ensures p.amount == wallet.initialBuy && p.slippage == Some(20.0) && p.priorityFee == Some(0.0005)
  {
    Token.TokenParams(
      Some(imageFile), generated.name, generated.symbol, generated.description,
      "", "", generated.website, wallet.publicKey, Some(generated.privateKey),
      wallet.initialBuy, Some(20.0), Some(0.0005))
  }

  /** With an accepted initial buy, the relay is asked for exactly that
      amount, a slippage of 20 and a priority fee of 0.0005, on behalf of the
      wallet's public key; the generated private key is the mint key. */
  lemma DeployRequestValues(generated: GeneratedToken, wallet: WalletInfo, imageFile: Token.Bytes, reply: Token.MetadataResponse)
    requires ValidateInitialBuy(wallet.initialBuy) == Accepted
    ensures var config := Token.TransactionConfigOf(DeployParams(generated, wallet, imageFile), reply);
      && config.amount == wallet.initialBuy.value
      && config.slippage == 20.0 && config.priorityFee == 0.0005
      && config.publicKey == wallet.publicKey
      && config.mintPrivateKey == Some(generated.privateKey)
  {
  }
}
