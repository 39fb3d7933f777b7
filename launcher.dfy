/** The token-entry wizard (TokenLauncher.js): a cursor over a fixed table of
    eleven steps, each naming a field of `formData` and a validator. A valid
    input is coerced, stored in its field and moves the cursor on; at the last
    step it starts token creation instead.

    The two callbacks of the source are recorded: every `onOutput` message is
    appended to `output`, and every `onComplete` call increments
    `completions`. */
module Launcher {
  import opened Wrappers
  import opened Numbers
  import Token

  /** The properties of `formData`. */
  datatype Field =
    | Name | Symbol | Description | Twitter | Telegram | Website | ImageFile
    | Amount | Slippage | PriorityFee | PublicKey | PrivateKey

  /** A value held in `formData`: a string, a number or `null`. */
  datatype Value = Str(s: string) | Number(x: real) | Null

  /** The validators used in the steps table. */
  datatype Check =
    | NonEmpty     // value.length > 0
    | Anything     // () => true
    | Positive     // !isNaN(value) && value > 0
    | NonNegative  // !isNaN(value) && value >= 0

  datatype Step = Step(prompt: string, field: Field, check: Check)

  const Steps: seq<Step> := [
    Step("Enter token name:", Name, NonEmpty),
    Step("Enter token symbol:", Symbol, NonEmpty),
    Step("Enter token description:", Description, NonEmpty),
    Step("Enter Twitter handle (optional):", Twitter, Anything),
    Step("Enter Telegram group (optional):", Telegram, Anything),
    Step("Enter website URL (optional):", Website, Anything),
    Step("Enter initial supply amount:", Amount, Positive),
    Step("Enter slippage percentage (default 10):", Slippage, NonNegative),
    Step("Enter priority fee in SOL (default 0.0005):", PriorityFee, NonNegative),
    Step("Enter your public key:", PublicKey, NonEmpty),
    Step("Enter your private key:", PrivateKey, NonEmpty)
  ]

  /** The fields whose input goes through `parseFloat(input) || 0`. */
  const NumericFields: set<Field> := {Amount, Slippage, PriorityFee}

  const InvalidStepMessage := "Invalid step"
  const InvalidInputMessage := "Invalid input. Please try again."
  const CreatingMessage := "Creating token..."
  const CreatedPrefix := "Token created successfully! Transaction: "
  const ErrorPrefix := "Error creating token: "
  const RpcEndpoint := "https://api.mainnet-beta.solana.com"

  /** `formData` as the constructor sets it. */
  function InitialFormData(): (d: map<Field, Value>)
  {
    map[
      Name := Str(""), Symbol := Str(""), Description := Str(""),
      Twitter := Str(""), Telegram := Str(""), Website := Str(""),
      ImageFile := Null,
      Amount := Number(1.0), Slippage := Number(10.0), PriorityFee := Number(0.0005),
      PublicKey := Str(""), PrivateKey := Str("")]
  }

  /** The kind of value each field holds: the image is `null`, the numeric
      fields hold numbers, the rest strings. */
  predicate WellTyped(f: Field, v: Value) {
    if f == ImageFile then v.Null?
    else if f in NumericFields then v.Number?
    else v.Str?
  }

  /** Every field is present and holds a value of its kind. */
  predicate FormDataValid(m: map<Field, Value>) {
    && Name in m && m[Name].Str? && Symbol in m && m[Symbol].Str?
    && Description in m && m[Description].Str? && Twitter in m && m[Twitter].Str?
    && Telegram in m && m[Telegram].Str? && Website in m && m[Website].Str?
    && ImageFile in m && m[ImageFile].Null?
    && Amount in m && m[Amount].Number? && Slippage in m && m[Slippage].Number?
    && PriorityFee in m && m[PriorityFee].Number?
    && PublicKey in m && m[PublicKey].Str? && PrivateKey in m && m[PrivateKey].Str?
  }

  /** Storing a value of a field's own kind keeps the form data valid. */
  lemma WriteKeepsValid(m: map<Field, Value>, f: Field, v: Value)
    requires FormDataValid(m) && WellTyped(f, v)
    ensures FormDataValid(m[f := v])
  {
  }

  /** Every step stores a value of its field's kind. */
  lemma CoerceWellTyped(i: nat, input: string)
    requires i < |Steps|
    ensures WellTyped(Steps[i].field, Coerce(Steps[i].field, input))
  {
  }

  /** The value stored for an input: `parseFloat(input) || 0` for a numeric
      field (NaN and 0 both give 0), the input itself otherwise. */
  function Coerce(field: Field, input: string): (v: Value)
    ensures field in NumericFields ==> v.Number?
    ensures field in NumericFields ==> (v.x == 0.0 <==> ParseFloat(input) in {None, Some(0.0)})
    ensures field in NumericFields && ParseFloat(input).Some? ==> v.x == ParseFloat(input).value
    ensures field !in NumericFields ==> v == Str(input)
  {
    if field in NumericFields then
      Number(match ParseFloat(input) case None => 0.0 case Some(x) => x)
    else Str(input)
  }

  /** A validator applied to a coerced value. A text validator asked about a
      number, or a numeric one about a string, says no; coercion never asks
      either. */
  predicate Validate(check: Check, v: Value) {
    match check
    case NonEmpty => v.Str? && |v.s| > 0
    case Anything => true
    case Positive => v.Number? && v.x > 0.0
    case NonNegative => v.Number? && v.x >= 0.0
  }

  /** Whether step `i` accepts `input`. */
  predicate Accepts(i: nat, input: string)
    requires i < |Steps|
  {
    Validate(Steps[i].check, Coerce(Steps[i].field, input))
  }

  /** The parameters the wizard passes to `createToken`: its form data as it
      stands, with no image and no mint key, since `formData` has neither. */
  function LauncherParams(formData: map<Field, Value>): Token.TokenParams
    requires FormDataValid(formData)
  {
    Token.TokenParams(
      None,
      formData[Name].s, formData[Symbol].s, formData[Description].s,
      formData[Twitter].s, formData[Telegram].s, formData[Website].s,
      formData[PublicKey].s,
      None,
      Some(formData[Amount].x), Some(formData[Slippage].x), Some(formData[PriorityFee].x))
  }

  /** The message that reports how token creation ended. */
  function CompletionMessage(env: Token.Collaborators, formData: map<Field, Value>): string
    requires FormDataValid(formData)
  {
    match env.fromSecretKey(formData[PrivateKey].s)
    case Failure(e) => ErrorPrefix + e
    case Success(signer) =>
      match Token.CreateTokenRun(env, signer, LauncherParams(formData)).result
      case Success(url) => CreatedPrefix + url
      case Failure(e) => ErrorPrefix + e
  }

  /** The state of a wizard: the cursor, the form data, and what the two
      callbacks have been given so far. */
  datatype Wizard = Wizard(currentStep: nat, formData: map<Field, Value>, output: seq<string>, completions: nat)

  /** The state the constructor sets up. */
  function InitialWizard(): Wizard {
    Wizard(0, InitialFormData(), [], 0)
  }

  /** The state after `handleInput` and the boolean it returns. */
  datatype Outcome = Outcome(next: Wizard, advanced: bool)

  /** `handleInput(input)` as a function of the state: check the cursor,
      coerce, validate, store, then move on or, at the last step, create the
      token and complete. */
  function Transition(w: Wizard, input: string, env: Token.Collaborators): (out: Outcome)
    requires FormDataValid(w.formData)
    ensures FormDataValid(out.next.formData)
  {
    if w.currentStep >= |Steps| then
      Outcome(w.(output := w.output + [InvalidStepMessage]), false)
    else
      var step := Steps[w.currentStep];
      var value := Coerce(step.field, input);
      if !Validate(step.check, value) then
        Outcome(w.(output := w.output + [InvalidInputMessage]), false)
      else
        CoerceWellTyped(w.currentStep, input);
        WriteKeepsValid(w.formData, step.field, value);
        var formData := w.formData[step.field := value];
        if w.currentStep < |Steps| - 1 then
          Outcome(Wizard(w.currentStep + 1, formData, w.output + [Steps[w.currentStep + 1].prompt], w.completions), true)
        else
          Outcome(Wizard(w.currentStep, formData, w.output + [CreatingMessage, CompletionMessage(env, formData)], w.completions + 1), false)
  }

  class TokenLauncher {
    var currentStep: nat
    var formData: map<Field, Value>
    /** The messages passed to `onOutput`, oldest first. */
    var output: seq<string>
    /** How many times `onComplete` was called. */
    var completions: nat

    ghost function State(): Wizard
      reads this
    {
      Wizard(currentStep, formData, output, completions)
    }

    ghost predicate Valid()
      reads this
    {
      FormDataValid(formData)
    }

    constructor ()
      ensures Valid() && State() == InitialWizard()
    {
      currentStep := 0;
      formData := InitialFormData();
      output := [];
      completions := 0;
      InitialFormDataValid();
    }

    /** Token creation from the form data as it stands, with the message
        that reports how it ended. */
    method ReportCreation(env: Token.Collaborators) returns (message: string)
      requires Valid()
      ensures message == CompletionMessage(env, formData)
    {
      var creator := Token.TokenCreator.Open(RpcEndpoint, formData[PrivateKey].s, env);
      if creator.Failure? {
        message := ErrorPrefix + creator.error;
      } else {
        var url := creator.value.CreateToken(LauncherParams(formData));
        match url
        case Success(link) => message := CreatedPrefix + link;
        case Failure(e) => message := ErrorPrefix + e;
      }
    }

    /** `handleInput(input)`: the result says whether the wizard moved on to
        a next prompt. */
    method HandleInput(input: string, env: Token.Collaborators) returns (advanced: bool)
      requires Valid()
      modifies this
      ensures Valid()
      ensures old(currentStep) < |Steps| ==> currentStep < |Steps|
      ensures Outcome(State(), advanced) == Transition(old(State()), input, env)
    {
      if currentStep >= |Steps| {
        output := output + [InvalidStepMessage];
        return false;
      }
      var step := Steps[currentStep];
      var value := Coerce(step.field, input);
      if !Validate(step.check, value) {
        output := output + [InvalidInputMessage];
        return false;
      }
      CoerceWellTyped(currentStep, input);
      WriteKeepsValid(formData, step.field, value);
      formData := formData[step.field := value];
      if currentStep < |Steps| - 1 {
        currentStep := currentStep + 1;
        output := output + [Steps[currentStep].prompt];
        return true;
      }
      output := output + [CreatingMessage];
      var message := ReportCreation(env);
      output := output + [message];
      completions := completions + 1;
      return false;
    }
  }

  /** A cursor past the table is reported and nothing else changes. */
  lemma InvalidStepReported(w: Wizard, input: string, env: Token.Collaborators)
    requires FormDataValid(w.formData) && w.currentStep >= |Steps|
    ensures Transition(w, input, env) == Outcome(w.(output := w.output + [InvalidStepMessage]), false)
  {
  }

  /** A rejected input yields exactly one "Invalid input" message and a
      false result, and leaves the cursor, the form data and the completions
      as they were. */
  lemma RejectedInputChangesNothing(w: Wizard, input: string, env: Token.Collaborators)
    requires FormDataValid(w.formData) && w.currentStep < |Steps| && !Accepts(w.currentStep, input)
    ensures Transition(w, input, env) == Outcome(w.(output := w.output + [InvalidInputMessage]), false)
  {
  }

  /** An accepted input stores its coerced value in the current step's field
      and leaves every other field as it was. */
  lemma AcceptedInputWritesItsField(w: Wizard, input: string, env: Token.Collaborators)
    requires FormDataValid(w.formData) && w.currentStep < |Steps| && Accepts(w.currentStep, input)
    ensures var next := Transition(w, input, env).next;
      && next.formData[Steps[w.currentStep].field] == Coerce(Steps[w.currentStep].field, input)
      && next.formData.Keys == w.formData.Keys
      && forall g :: g in w.formData && g != Steps[w.currentStep].field ==> next.formData[g] == w.formData[g]
  {
  }

  /** Before the last step an accepted input moves the cursor on by exactly
      one, shows the next prompt and returns true. */
  lemma AcceptedInputAdvances(w: Wizard, input: string, env: Token.Collaborators)
    requires FormDataValid(w.formData) && w.currentStep < |Steps| - 1 && Accepts(w.currentStep, input)
    ensures var out := Transition(w, input, env);
      && out.advanced
      && out.next.currentStep == w.currentStep + 1
      && out.next.output == w.output + [Steps[w.currentStep + 1].prompt]
      && out.next.completions == w.completions
  {
  }

  /** At the last step an accepted input starts token creation, reports its
      end, calls `onComplete` once and returns false; the cursor stays. */
  lemma LastStepCompletes(w: Wizard, input: string, env: Token.Collaborators)
    requires FormDataValid(w.formData) && w.currentStep == |Steps| - 1 && Accepts(w.currentStep, input)
    ensures var out := Transition(w, input, env);
      && !out.advanced
      && out.next.currentStep == w.currentStep
      && FormDataValid(out.next.formData)
      && out.next.output == w.output + [CreatingMessage, CompletionMessage(env, out.next.formData)]
      && out.next.completions == w.completions + 1
  {
  }

  /** Every transition keeps the form data valid, keeps a cursor that is in
      range in range, emits one message (two when it completes) and never
      reports an invalid step from a cursor in range. */
  lemma TransitionInvariant(w: Wizard, input: string, env: Token.Collaborators)
    requires FormDataValid(w.formData)
    ensures var next := Transition(w, input, env).next;
      && FormDataValid(next.formData)
      && (w.currentStep < |Steps| ==> next.currentStep < |Steps|)
      && (next.completions == w.completions || next.completions == w.completions + 1)
      && |next.output| == |w.output| + 1 + (next.completions - w.completions)
      && next.output[..|w.output|] == w.output
      && (w.currentStep < |Steps| ==> InvalidStepMessage !in next.output[|w.output|..])
  {
    if w.currentStep < |Steps| {
      var i := w.currentStep;
      StepShape(i);
      if !Accepts(i, input) {
        RejectedInputChangesNothing(w, input, env);
      } else if i < |Steps| - 1 {
        StepShape(i + 1);
        AcceptedInputAdvances(w, input, env);
      } else {
        LastStepCompletes(w, input, env);
        PromptsAreNotInvalidStep();
      }
    }
  }

  /** What each step is like: it writes a field other than the image, its
      prompt is not the "Invalid step" report, and its validator is numeric
      exactly when its field is. */
  lemma StepShape(i: nat)
    requires i < |Steps|
    ensures Steps[i].field != ImageFile
    ensures Steps[i].prompt != InvalidStepMessage
    ensures Steps[i].field in NumericFields <==> Steps[i].check in {Positive, NonNegative}
  {
    if i < 6 {
      if i < 3 {
        assert i == 0 || i == 1 || i == 2;
      } else {
        assert i == 3 || i == 4 || i == 5;
      }
    } else {
      if i < 9 {
        assert i == 6 || i == 7 || i == 8;
      } else {
        assert i == 9 || i == 10;
      }
    }
  }

  /** Whether steps 0 to n-1 accept the first n inputs. */
  predicate AcceptedUpTo(inputs: seq<string>, n: nat)
    requires n <= |inputs| && n <= |Steps|
  {
    forall k :: 0 <= k < n ==> Accepts(k, inputs[k])
  }

  /** What holds of the wizard after the first `i` inputs of a session. */
  ghost predicate SessionInvariant(w: Wizard, inputs: seq<string>, i: nat, env: Token.Collaborators)
    requires i <= |inputs|
  {
    && FormDataValid(w.formData) && w.currentStep < |Steps|
    && InvalidStepMessage !in w.output
    && |w.output| == i + w.completions
    && (i < |Steps| && AcceptedUpTo(inputs, i) ==> w.currentStep == i && w.completions == 0)
    && (i <= |Steps| && AcceptedUpTo(inputs, i) ==>
          forall k :: 0 <= k < i ==> w.formData[Steps[k].field] == Coerce(Steps[k].field, inputs[k]))
    && (i == |Steps| && AcceptedUpTo(inputs, i) ==>
          w.completions == 1 && w.output[|w.output| - 1] == CompletionMessage(env, w.formData))
  }

  /** One more input keeps the session invariant. */
  lemma SessionStep(w: Wizard, inputs: seq<string>, i: nat, env: Token.Collaborators)
    requires i < |inputs| && SessionInvariant(w, inputs, i, env)
    ensures SessionInvariant(Transition(w, inputs[i], env).next, inputs, i + 1, env)
  {
    var next := Transition(w, inputs[i], env).next;
    TransitionInvariant(w, inputs[i], env);
    assert next.output == w.output + next.output[|w.output|..];
    if i < |Steps| && AcceptedUpTo(inputs, i + 1) {
      assert AcceptedUpTo(inputs, i) && Accepts(i, inputs[i]);
      StepFieldsDistinct();
      AcceptedInputWritesItsField(w, inputs[i], env);
      if i < |Steps| - 1 {
        AcceptedInputAdvances(w, inputs[i], env);
      } else {
        LastStepCompletes(w, inputs[i], env);
      }
    }
  }

  /** An operator session: a fresh wizard fed `inputs` in order. The cursor
      starts at 0 and only moves while below the last step, so the
      "Invalid step" report never appears; every input yields one message,
      and a completion one more. Eleven accepted inputs complete the wizard
      exactly once, with each input stored, coerced, in its own field. */
  method RunSession(inputs: seq<string>, env: Token.Collaborators)
    returns (output: seq<string>, completions: nat, formData: map<Field, Value>)
    ensures InvalidStepMessage !in output
    ensures |output| == |inputs| + completions
    ensures |inputs| == |Steps| && AcceptedUpTo(inputs, |Steps|) ==>
      && completions == 1
      && FormDataValid(formData)
      && (forall k :: 0 <= k < |Steps| ==> formData[Steps[k].field] == Coerce(Steps[k].field, inputs[k]))
      && output[|output| - 1] == CompletionMessage(env, formData)
  {
    var launcher := new TokenLauncher();
    var i := 0;
    while i < |inputs|
      invariant 0 <= i <= |inputs|
      invariant launcher.Valid() && SessionInvariant(launcher.State(), inputs, i, env)
    {
      SessionStep(launcher.State(), inputs, i, env);
      var _ := launcher.HandleInput(inputs[i], env);
      i := i + 1;
    }
    output, completions, formData := launcher.output, launcher.completions, launcher.formData;
  }

  /** No two steps write the same field. */
  lemma StepFieldsDistinct()
    ensures forall j, k :: 0 <= j < k < |Steps| ==> Steps[j].field != Steps[k].field
  {
  }

  lemma PromptsAreNotInvalidStep()
    ensures forall i :: 0 <= i < |Steps| ==> Steps[i].prompt != InvalidStepMessage
    ensures InvalidInputMessage != InvalidStepMessage && CreatingMessage != InvalidStepMessage
    ensures forall s :: CreatedPrefix + s != InvalidStepMessage && ErrorPrefix + s != InvalidStepMessage
  {
    forall s ensures CreatedPrefix + s != InvalidStepMessage && ErrorPrefix + s != InvalidStepMessage {
      assert (CreatedPrefix + s)[0] == 'T' && (ErrorPrefix + s)[0] == 'E';
    }
  }

  /** The required text fields (name, symbol, description and the two keys)
      reject exactly the empty input. */
  lemma RequiredTextRejectsOnlyEmpty(i: nat, input: string)
    requires i in {0, 1, 2, 9, 10}
    ensures Accepts(i, input) <==> input != []
  {
  }

  /** The optional links accept any input, stored as typed. */
  lemma OptionalFieldsAcceptAll(i: nat, input: string)
    requires i in {3, 4, 5}
    ensures Accepts(i, input)
    ensures Coerce(Steps[i].field, input) == Str(input)
  {
  }

  /** The amount step accepts exactly the inputs that parse to a positive
      number. */
  lemma AmountRule(input: string)
    ensures Accepts(6, input) <==> ParseFloat(input).Some? && ParseFloat(input).value > 0.0
  {
    assert Steps[6] == Step("Enter initial supply amount:", Amount, Positive);
  }

  /** The slippage and priority-fee steps accept everything that does not
      parse to a negative number. */
  lemma SlippageAndFeeRule(i: nat, input: string)
    requires i in {7, 8}
    ensures Accepts(i, input) <==> ParseFloat(input).None? || ParseFloat(input).value >= 0.0
  {
    assert Steps[i].check == NonNegative && Steps[i].field in NumericFields;
  }

  /** Input that is not a number becomes 0: the amount step rejects it, the
      slippage and priority-fee steps store 0. */
  lemma NotANumberBecomesZero(input: string)
    requires ParseFloat(input) == None
    ensures !Accepts(6, input)
    ensures Accepts(7, input) && Coerce(Slippage, input) == Number(0.0)
    ensures Accepts(8, input) && Coerce(PriorityFee, input) == Number(0.0)
  {
  }

  /** "abc" is rejected as an amount and stored as 0 for slippage. */
  lemma AbcAsAmount()
    ensures !Accepts(6, "abc") && Coerce(Slippage, "abc") == Number(0.0)
  {
    assert Scan("abc", Blank) == Stopped(Blank);
    NotANumberBecomesZero("abc");
  }

  /** The constructor's form data is well typed. */
  lemma InitialFormDataValid()
    ensures FormDataValid(InitialFormData())
    ensures InitialFormData().Keys == {Name, Symbol, Description, Twitter, Telegram, Website, ImageFile,
                                       Amount, Slippage, PriorityFee, PublicKey, PrivateKey}
    ensures forall f :: f in InitialFormData() && InitialFormData()[f].Str? ==> InitialFormData()[f].s == ""
    ensures InitialFormData()[Amount] == Number(1.0)
    ensures InitialFormData()[Slippage] == Number(10.0)
    ensures InitialFormData()[PriorityFee] == Number(0.0005)
  {
  }

  /** The completion message is the creation URL after "Token created
      successfully! Transaction: " when the signer key decodes and creation
      succeeds, and otherwise "Error creating token: " followed by the
      message of whichever step failed. */
  lemma CompletionReportsOutcome(env: Token.Collaborators, formData: map<Field, Value>)
    requires FormDataValid(formData)
    ensures var signer := env.fromSecretKey(formData[PrivateKey].s);
      var msg := CompletionMessage(env, formData);
      && (signer.Failure? ==> msg == ErrorPrefix + signer.error)
      && (signer.Success? ==>
            var run := Token.CreateTokenRun(env, signer.value, LauncherParams(formData));
            && (run.result.Success? ==> msg == CreatedPrefix + run.result.value)
            && (run.result.Failure? ==> msg == ErrorPrefix + run.result.error))
  {
  }

  /** The wizard never supplies a mint key, so token creation started from it
      always ends in an error, and the metadata upload is the only call made
      to the network: the relay is never asked. */
  lemma WizardCreationFails(env: Token.Collaborators, formData: map<Field, Value>)
    requires FormDataValid(formData)
    ensures |ErrorPrefix| <= |CompletionMessage(env, formData)|
    ensures CompletionMessage(env, formData)[..|ErrorPrefix|] == ErrorPrefix
    ensures env.fromSecretKey(formData[PrivateKey].s).Success? ==>
      var run := Token.CreateTokenRun(env, env.fromSecretKey(formData[PrivateKey].s).value, LauncherParams(formData));
      && run.events == [Token.MetadataUploaded(Token.MetadataForm(LauncherParams(formData)))]
      && (env.uploadMetadata(Token.MetadataForm(LauncherParams(formData))).Success? ==>
            run.result == Failure(Token.CreationFailedPrefix + Token.UndefinedKeyMessage))
  {
  }
}
