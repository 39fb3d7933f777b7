# Heliost token launcher, modelled in Dafny

Heliost is a command-line tool that generates a Solana token (name, symbol, artwork) and deploys it through the pump.fun relay. This project models the three pieces of its logic that do not depend on a terminal or the network:

- **The token-entry wizard** (`TokenLauncher`) is modelled in `launcher.dfy`. It has a cursor over a fixed table of eleven steps and a `formData` record with defaults. `handleInput` works in this order:
  1. It coerces the input; the amount, slippage and priority fee go through `parseFloat(input) || 0`.
  2. It validates the coerced value.
  3. It writes exactly one field.
  4. It advances the cursor, or at the last step it hands off to token creation.

  The class keeps its fields and has a `modifies this` method. `Transition` is a pure function of the same state; `HandleInput` is proved equal to it, and the wizard's rules are lemmas about `Transition`. `RunSession` feeds a fresh wizard a list of inputs and shows three things:
  - the cursor never leaves the table;
  - eleven accepted inputs complete the wizard exactly once;
  - each input is stored, coerced, in its own field.
- **ECMAScript `parseFloat`** is modelled in `numbers.dfy` on exact reals, with NaN as `None`. It is a character-by-character scanner that remembers the value of the longest decimal literal read so far.
- **The deployment pipeline** (`TokenCreator`) is modelled in `token.dfy`. It covers:
  - the ordered metadata form;
  - the `||` defaulting of the economic parameters;
  - the body of the trade request;
  - the status check;
  - the signer order;
  - the Solscan URL and the error wrapping.

  Key decoding, the IPFS upload, the trade relay, transaction decoding, signing and sending are *collaborators*: function-typed fields of `Collaborators` that return a `Result`. The calls that leave the process or use a secret — the upload, the relay request, signing and sending — are recorded as `Event`s, in order. Key decoding and transaction decoding are local and deterministic, so they are not recorded; the lemmas state their results as values of the collaborator functions instead. `CreateTokenRun` and `TransactionRun` give the result and the trace as functions. The `TokenCreator` class methods are proved to produce exactly these, and the properties are lemmas about them.
- **The pure helpers of the CLI** are modelled in `cli.dfy`:
  - the wallet-prompt validators;
  - `shuffleArray`, a Fisher–Yates shuffle of a copied array in which the random indices come from an oracle `draws` with `draws[k] <= k`;
  - the filter that keeps the images that loaded;
  - the `--network` guard;
  - the parameters `deploy-token` passes to `createToken`.

`wrappers.dfy` holds `Option` (JavaScript's NaN, `undefined` and `null`) and `Result` (a value, or a thrown `Error` with its message).

The wizard never supplies a mint key: its `formData` has no `mintPrivateKey`. So `createTokenTransaction` decodes `undefined` and throws. The model follows the code here. `Launcher.WizardCreationFails` proves the consequences:
- a wizard completion always ends in "Error creating token: ";
- the metadata upload is the only network call made;
- the relay is never asked.

## Model

| member | source | states |
|---|---|---|
| Numbers.ParseDecimal | TokenLauncher.js:94 | `parseFloat` of the decimal rendering of a natural number gives that number back |
| Numbers.ParseStopsAtTerminator | TokenLauncher.js:94 | for any input `s`, appending a character that can neither extend nor start a literal, followed by anything, leaves the result of `s` unchanged |
| Numbers.ParseIgnoresTrailing | TokenLauncher.js:94 | the digits of `n` followed by any character other than a digit, a point or an exponent mark, then by any text at all, parse to `n` |
| Numbers.ParseNegative | TokenLauncher.js:94 | for every input that starts with a digit or a point, a leading `-` negates the result (NaN stays NaN) and a leading `+` leaves it unchanged |
| Numbers.FlipScan | TokenLauncher.js:94 | once the sign is read, the rest of the scan is the same for either sign, with the value negated |
| Numbers.ScanSkipsBlanks | TokenLauncher.js:94 | leading ECMAScript white space is skipped |
| Numbers.NotNumericIsNaN | TokenLauncher.js:94 | an input whose first non-blank character cannot begin a decimal literal parses to NaN |
| Numbers.ParseFraction | TokenLauncher.js:94 | digits `w`, a point and digits `f` parse to the value of `w` followed by `f`, divided by ten to the number of digits in `f` |
| Numbers.ParseExponent | TokenLauncher.js:94 | digits `w`, `e` and the digits of `n` parse to the value of `w` times ten to the `n` |
| Numbers.ParseNegativeExponent | TokenLauncher.js:94 | digits `w`, `e-` and the digits of `n` parse to the value of `w` divided by ten to the `n` |
| Numbers.DefaultFeeReadsBack | TokenLauncher.js:66-70 | "0.0005", the default priority fee, parses to exactly 0.0005 |
| Numbers.ScanDigits | TokenLauncher.js:94 | a run of digits read after a mantissa extends it digit by digit; after the point each also counts as a fraction digit |
| Numbers.ScanExponentDigits | TokenLauncher.js:94 | a run of digits read after the start of an exponent extends the exponent digit by digit |
| Launcher.Coerce | TokenLauncher.js:92-95 | numeric fields hold a number that is 0 exactly when the input is NaN or parses to 0, and otherwise the parsed value; other fields hold the input unchanged |
| Launcher.InitialFormDataValid | TokenLauncher.js:10-23 | the initial form data has exactly the twelve fields, each of its own kind: every text field empty, the image `null`, amount 1, slippage 10 and priority fee 0.0005 |
| Launcher.TokenLauncher.constructor | TokenLauncher.js:6-23 | the cursor starts at 0 with the default form data, no output and no completion |
| Launcher.Transition | TokenLauncher.js:84-127 | every transition keeps each field present and of its own kind |
| Launcher.TokenLauncher.HandleInput | TokenLauncher.js:84-127 | the new state and the result are those of `Transition`; a cursor in range stays in range |
| Launcher.CompletionReportsOutcome | TokenLauncher.js:110-124 | the completion message is "Token created successfully! Transaction: " and the URL when the signer key decodes and creation succeeds; otherwise "Error creating token: " and the message of the step that failed |
| Launcher.TokenLauncher.ReportCreation | TokenLauncher.js:110-125 | the completion message reports the URL on success and the error's message otherwise, key-decoding errors included |
| Launcher.InvalidStepReported | TokenLauncher.js:85-90 | a cursor past the table emits "Invalid step", returns false and changes nothing else |
| Launcher.RejectedInputChangesNothing | TokenLauncher.js:97-100 | a rejected input emits exactly one "Invalid input" message, returns false, and leaves cursor, form data and completions unchanged |
| Launcher.AcceptedInputWritesItsField | TokenLauncher.js:102 | an accepted input stores its coerced value in the step's field and leaves every other field unchanged |
| Launcher.AcceptedInputAdvances | TokenLauncher.js:104-107 | before the last step an accepted input moves the cursor on by one, shows the next prompt and returns true |
| Launcher.LastStepCompletes | TokenLauncher.js:108-126 | at the last step an accepted input emits "Creating token..." and the outcome message, calls `onComplete` once, returns false and keeps the cursor at 10 |
| Launcher.TransitionInvariant | TokenLauncher.js:104-108 | a cursor in range stays in range; each input emits one message (two on completion); completions grow by at most one; "Invalid step" is never emitted from a cursor in range |
| Launcher.SessionStep | TokenLauncher.js:84-127 | one more input preserves the session invariant |
| Launcher.RunSession | TokenLauncher.js:84-127 | from the constructor state "Invalid step" never appears; output length is inputs plus completions; eleven accepted inputs complete once, store each coerced input in its field and end with the outcome message |
| Launcher.StepFieldsDistinct | TokenLauncher.js:25-81 | no two steps write the same field |
| Launcher.StepShape | TokenLauncher.js:25-81 | no step writes the image, no prompt is "Invalid step", and a step's validator is numeric exactly when its field is |
| Launcher.RequiredTextRejectsOnlyEmpty | TokenLauncher.js:25-81 | name, symbol, description and both keys reject exactly the empty input |
| Launcher.OptionalFieldsAcceptAll | TokenLauncher.js:41-55 | Twitter, Telegram and website accept any input, stored as typed |
| Launcher.AmountRule | TokenLauncher.js:56-60 | the amount step accepts exactly the inputs that parse to a positive number |
| Launcher.SlippageAndFeeRule | TokenLauncher.js:61-70 | slippage and priority fee accept exactly the inputs that do not parse to a negative number |
| Launcher.NotANumberBecomesZero | TokenLauncher.js:92-97 | non-numeric input is rejected as an amount and stored as 0 for slippage and priority fee |
| Launcher.AbcAsAmount | TokenLauncher.js:92-97 | "abc" is rejected as an amount and stored as 0 as a slippage |
| Launcher.WizardCreationFails | TokenLauncher.js:112-117 | wizard-started creation always reports an error; once the signer key decodes, only the metadata upload is called, and after a successful upload the error is the mint key's decoding error |
| Token.MetadataForm | Token.js:10-21 | the form has exactly eight entries, keyed file, name, symbol, description, twitter, telegram, website, showName in that order |
| Token.TokenCreator.CreateMetadataForm | Token.js:10-21 | eight successive appends build exactly that form |
| Token.MetadataFormFields | Token.js:10-21 | each key maps to its parameter, "file" to the image and "showName" to "true" |
| Token.TokenCreator.Open | Token.js:5-8 | construction fails exactly when the private key does not decode, with the decoder's message; otherwise it holds the decoded key pair and an empty trace |
| Token.TokenCreator.UploadMetadata | Token.js:23-29 | one upload is recorded and its reply returned |
| Token.TokenCreator.CreateTokenTransaction | Token.js:31-67 | the result and the calls made are those of `TransactionRun` |
| Token.TokenCreator.CreateToken | Token.js:69-91 | the result and the calls made are those of `CreateTokenRun` |
| Token.OrDefault | Token.js:81-83 | JavaScript's logical-or default on a number: a present non-zero value is kept; a missing value (NaN, `undefined`) or 0 gives the default |
| Token.TransactionConfigOf | Token.js:74-85 | the config passes the public key and mint key through, takes name, symbol and URI from the upload's reply, and defaults amount, slippage and priority fee to 0, 10 and 0.0005 when they are falsy |
| Token.TradeBody | Token.js:44-54 | the request body has action "create", denominatedInSol "true", pool "pump", the mint's public key, and the config's key, metadata and amounts |
| Token.MintKeypair | Token.js:34 | an absent mint key fails with the base58 decoder's "Expected String"; a present one is decoded by the key collaborator |
| Token.TransactionRun | Token.js:31-67 | at most three calls are made, and a success is the signature returned by sending the third call's transaction |
| Token.CreateTokenRun | Token.js:69-91 | the upload of the metadata form is always the first of one to four calls, and a success is a Solscan URL |
| Token.EconomicDefaults | Token.js:74-85 | a missing or zero amount becomes 0, slippage 10, priority fee 0.0005; other values, the public key, the mint key and the reply's name, symbol and URI pass through |
| Token.UploadPrecedesRequest | Token.js:71-80 | the upload is the first call and happens once; a failed upload ends the run; the relay, if asked, is asked second with the reply's metadata |
| Token.RequestBodyFields | Token.js:34-54 | the request has action "create", denominatedInSol "true", pool "pump", the mint's public key, and the config's key, metadata and amounts unchanged |
| Token.NonOkStatusAborts | Token.js:57-59 | a status other than 200 fails with "Transaction creation failed: " and the status text; nothing is signed or sent |
| Token.SignedBeforeSent | Token.js:61-65 | signing comes second, signs the transaction decoded from the relay's reply with [mint key pair, creator key pair] in that order, and is the only way to the send, which sends what signing produced |
| Token.CreateTokenOutcome | Token.js:69-91 | success exactly when a signed transaction was sent and the network returned a signature, and then the result is "https://solscan.io/tx/" plus that signature; every failure is "Token creation failed: " followed by the upload's error, or else by the error of `createTokenTransaction` |
| Cli.ValidatePublicKey | cli.js:211-217 | accepted exactly when the length is between 32 and 44 |
| Cli.ValidatePrivateKey | cli.js:223-229 | accepted exactly when the length is between 64 and 88 |
| Cli.ValidateInitialBuy | cli.js:235-240 | accepted exactly when the answer is a number in (0, 100]; NaN gets "Please enter a valid number" |
| Cli.Swap | cli.js:56 | the two positions are exchanged and all others kept |
| Cli.Shuffled | cli.js:52-59 | Fisher–Yates from a position down to 1 keeps the length |
| Cli.ShuffledPermutes | cli.js:52-59 | the shuffle keeps the length and the multiset of elements |
| Cli.ShuffleArray | cli.js:52-59 | the in-place loop on the copy computes the Fisher–Yates shuffle for the given draws, a permutation of the input, which is not modified |
| Cli.Present | cli.js:64 | the kept images are exactly the loads that succeeded, each as many times as it loaded |
| Cli.PresentAppend | cli.js:64 | the filter keeps order |
| Cli.ValidImages | cli.js:61-71 | success exactly when some load succeeded, with the loaded images in order and non-empty; otherwise the "No valid images found" error |
| Cli.NetworkGuard | cli.js:251-254 | anything but "solana", a missing option included, exits with status 1 and the unsupported-network message |
| Cli.DeployParams | cli.js:343-356 | the generated name, symbol, description, website and image, empty Twitter and Telegram, the wallet's public key and initial buy, the generated private key as mint key, slippage 20 and priority fee 0.0005 |
| Cli.DeployRequestValues | cli.js:336-356 | with an accepted initial buy, the relay is asked for exactly that amount, slippage 20 and priority fee 0.0005, for the wallet's key, with the generated key as the mint key |

## Left out

- Image effects and compositing (`applyRandomEffectsToImage`, opacities, rotations, the focused image): floating-point randomness and `sharp` calls with no stateable contract.
- Terminal rendering (`SunAnimator`, `typeText`, `displayImage`, figlet and gradient output): timer-driven I/O.
- The `inquirer`/`commander` glue and the interactive regenerate loop: user interaction, not logic.
- HTTP, base58, key derivation, transaction decoding, signing and sending are collaborators, not cryptography or network code. Calls to upload, relay, signing and sending are recorded with their arguments; key and transaction decoding are not recorded, and their results appear in the contracts as values of the collaborator functions.
- Collaborator failures:
  - an upload reply that is not JSON, and a failing `arrayBuffer()`, are folded into the upload and relay collaborators' `Failure`;
  - the upload's HTTP status is not checked by the code, so the model does not check it either.
- LastStepCompletes, RunSession: `onOutput` and `onComplete` are assumed not to throw. In the source a throwing `onOutput("Creating token...")` or `onComplete()` inside the `try` of TokenLauncher.js:110-124 is caught, reported as "Error creating token: …", and `onComplete` is called a second time; the model does not capture that path.
- `async`/`await` and the callbacks' own asynchrony: calls are modelled in program order, and `onOutput` and `onComplete` as an appended message list and a counter.
- `console.log` of the configuration and the private keys: secrets are not reproduced.
- The reference to an undefined `result` after deployment, and the unused React import.
- `FormData.append` of a `null` image: it stringifies the value, while the model keeps it as an absent file.
- JavaScript string length counts UTF-16 code units, while Dafny counts characters. The two agree for base58 keys and ASCII text.
- Numbers.ParseFloat: exact reals, with no IEEE rounding, overflow or `-0`. "Infinity" with its sign parses to NaN here instead of ±Infinity.
- Token.MintKeypair: decoding an absent key fails with the fixed message "Expected String", standing for the error base58 raises on `undefined`.
- Cli.ValidatePublicKey: the message says "less than 44 characters", but 44 is accepted. The model keeps both the code's bound and its message.
- Cli.ShuffleArray: randomness is an argument, the sequence of `randomInt` results, constrained to the range the code asks for.
