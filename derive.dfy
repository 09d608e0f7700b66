/**
 * The `derive` command (src/mm_mnemonic/commands/derive.py): the option record,
 * its validation, and the flow of `run` that decides where the mnemonic and the
 * passphrase come from, when the network guard runs, and whether the derived
 * accounts are stored, encrypted and shown in full.
 */
module Derive {
  import opened Types
  import opened Env

  /** The options of `derive` (class Params). `outputDir` is the `Path | None`. */
  datatype Params = Params(
    coin: Coin,
    mnemonic: Option<string>,
    passphrase: Option<string>,
    generate: bool,
    generatePassphrase: bool,
    prompt: bool,
    words: int,
    derivationPath: Option<string>,
    limit: int,
    outputDir: Option<string>,
    encrypt: bool,
    allowInternetRisk: bool)

  /** The `typer.BadParameter` errors raised by `validate_params`. */
  datatype ParamError =
    | EncryptWithoutOutputDir
    | MultipleInputMethods(names: seq<string>)   // the active methods, as listed in the message
    | PassphraseWithPrompt
    | GeneratePassphraseWithoutGenerate
    | WordsWithoutGenerate

  datatype Validation = Valid | Invalid(error: ParamError)

  /** The five checks of `validate_params`. */
  datatype Check = OutputCheck | InputMethodCheck | PassphraseCheck | GeneratePassphraseCheck | WordsCheck

  /** The position of a check in the source. */
  function Rank(c: Check): nat {
    match c
    case OutputCheck => 0
    case InputMethodCheck => 1
    case PassphraseCheck => 2
    case GeneratePassphraseCheck => 3
    case WordsCheck => 4
  }

  /** The check that raises a given error. */
  function CheckOf(e: ParamError): Check {
    match e
    case EncryptWithoutOutputDir => OutputCheck
    case MultipleInputMethods(_) => InputMethodCheck
    case PassphraseWithPrompt => PassphraseCheck
    case GeneratePassphraseWithoutGenerate => GeneratePassphraseCheck
    case WordsWithoutGenerate => WordsCheck
  }

  /** The option combination each check forbids, stated on its own. */
  predicate Violates(p: Params, c: Check) {
    match c
    case OutputCheck => p.encrypt && p.outputDir.None?
    case InputMethodCheck =>
      (p.prompt && p.generate) || (p.prompt && p.mnemonic.Some?) || (p.generate && p.mnemonic.Some?)
    case PassphraseCheck => p.prompt && p.passphrase.Some?
    case GeneratePassphraseCheck => p.generatePassphrase && !p.generate
    case WordsCheck => !p.generate && p.words != 24
  }

  /** The names of the active input methods, in the fixed order prompt, generate, mnemonic. */
  function ActiveNames(p: Params): seq<string> {
    (if p.prompt then ["prompt"] else [])
    + (if p.generate then ["generate"] else [])
    + (if p.mnemonic.Some? then ["mnemonic"] else [])
  }

  /** The `input_methods` list of `validate_params`. */
  function InputMethods(p: Params): seq<(string, bool)> {
    [("prompt", p.prompt), ("generate", p.generate), ("mnemonic", p.mnemonic.Some?)]
  }

  /** The list comprehension keeping the active entries of `methods`. */
  function Active(methods: seq<(string, bool)>): (r: seq<(string, bool)>)
    ensures forall i :: 0 <= i < |r| ==> r[i].1
  {
    if methods == [] then []
    else (if methods[0].1 then [methods[0]] else []) + Active(methods[1..])
  }

  /**
   * The comprehension keeps every active entry and only those, and never makes
   * the list longer.
   */
  lemma {:induction false} ActiveKeepsExactlyActive(methods: seq<(string, bool)>)
    ensures forall x :: x in Active(methods) <==> x in methods && x.1
    ensures |Active(methods)| <= |methods|
  {
    if methods != [] {
      ActiveKeepsExactlyActive(methods[1..]);
      assert methods == [methods[0]] + methods[1..];
    }
  }

  /** Filtering a concatenation filters each part and keeps them in order. */
  lemma {:induction false} ActiveAppend(a: seq<(string, bool)>, b: seq<(string, bool)>)
    ensures Active(a + b) == Active(a) + Active(b)
  {
    if a == [] {
      assert a + b == b;
    } else {
      assert (a + b)[0] == a[0];
      assert (a + b)[1..] == a[1..] + b;
      ActiveAppend(a[1..], b);
      var head := if a[0].1 then [a[0]] else [];
      assert Active(a + b) == head + (Active(a[1..]) + Active(b));
      assert Active(a) == head + Active(a[1..]);
    }
  }

  /** The first components of `pairs`, in order. */
  function Names(pairs: seq<(string, bool)>): (r: seq<string>)
    ensures |r| == |pairs|
    ensures forall i :: 0 <= i < |r| ==> r[i] == pairs[i].0
  {
    if pairs == [] then [] else [pairs[0].0] + Names(pairs[1..])
  }

  /** Filtering the fixed `input_methods` list keeps the active names in their fixed order. */
  lemma ActiveInputMethods(p: Params)
    ensures Names(Active(InputMethods(p))) == ActiveNames(p)
  {
    var ms := InputMethods(p);
    assert ms[1..][1..] == [ms[2]];
    assert ms[1..][1..][1..] == [];
    assert Active(ms[1..][1..][1..]) == [];
    var a2 := Active(ms[1..][1..]);
    assert a2 == (if p.mnemonic.Some? then [ms[2]] else []) + [];
    var a1 := Active(ms[1..]);
    assert a1 == (if p.generate then [ms[1]] else []) + a2;
    assert Active(ms) == (if p.prompt then [ms[0]] else []) + a1;
    forall x: (string, bool) ensures Names([x]) == [x.0] {
      assert [x][1..] == [];
    }
    NamesAppend(if p.generate then [ms[1]] else [], a2);
    NamesAppend(if p.prompt then [ms[0]] else [], a1);
  }

  lemma {:induction false} NamesAppend(a: seq<(string, bool)>, b: seq<(string, bool)>)
    ensures Names(a + b) == Names(a) + Names(b)
  {
    if a != [] {
      assert (a + b)[1..] == a[1..] + b;
      NamesAppend(a[1..], b);
    }
  }

  /**
   * `Params.validate_params`: succeeds exactly when no check is violated; when
   * several are, the earliest in source order decides the error.
   */
  function ValidateParams(p: Params): (r: Validation)
    ensures r.Valid? <==> forall c :: !Violates(p, c)
    ensures r.Invalid? ==> Violates(p, CheckOf(r.error))
    ensures r.Invalid? ==> forall c :: Rank(c) < Rank(CheckOf(r.error)) ==> !Violates(p, c)
    ensures r.Invalid? && r.error.MultipleInputMethods? ==> r.error.names == ActiveNames(p)
  {
    if p.encrypt && p.outputDir.None? then
      assert Violates(p, OutputCheck);
      Invalid(EncryptWithoutOutputDir)
    else
      var active := Active(InputMethods(p));
      ActiveInputMethods(p);
      if |active| > 1 then
        assert |ActiveNames(p)| > 1;
        assert Violates(p, InputMethodCheck);
        Invalid(MultipleInputMethods(Names(active)))
      else if p.prompt && p.passphrase.Some? then
        assert Violates(p, PassphraseCheck);
        Invalid(PassphraseWithPrompt)
      else if p.generatePassphrase && !p.generate then
        assert Violates(p, GeneratePassphraseCheck);
        Invalid(GeneratePassphraseWithoutGenerate)
      else if !p.generate && p.words != 24 then
        assert Violates(p, WordsCheck);
        Invalid(WordsWithoutGenerate)
      else
        Valid
  }

  /** Each forbidden combination, stated directly, and what `validate_params` does not forbid. */
  lemma ValidateParamsCases(p: Params)
    ensures p.encrypt && p.outputDir.None? ==> ValidateParams(p) == Invalid(EncryptWithoutOutputDir)
    ensures !(p.encrypt && p.outputDir.None?) && |ActiveNames(p)| >= 2 ==>
      ValidateParams(p) == Invalid(MultipleInputMethods(ActiveNames(p)))
    ensures p.prompt && p.passphrase.Some? ==> ValidateParams(p).Invalid?
    ensures p.generatePassphrase && !p.generate ==> ValidateParams(p).Invalid?
    ensures !p.generate && p.words != 24 ==> ValidateParams(p).Invalid?
    // with --generate any word count passes this layer, 24 or not, BIP-0039 or not
    ensures p.generate && !p.prompt && p.mnemonic.None? && !(p.encrypt && p.outputDir.None?) ==>
      ValidateParams(p).Valid?
  {
    var r := ValidateParams(p);
    if !(p.encrypt && p.outputDir.None?) && |ActiveNames(p)| >= 2 {
      assert Violates(p, InputMethodCheck);
      assert CheckOf(r.error) == InputMethodCheck by {
        assert !Violates(p, OutputCheck);
      }
    }
  }

  /** The input branch `run` takes. */
  datatype InputMode = PromptMode | GenerateMode | MnemonicMode | NoInputMode

  /** The first of `run`'s `if`/`elif` tests that holds. */
  function SelectedMode(p: Params): InputMode {
    if p.prompt then PromptMode
    else if p.generate then GenerateMode
    else if p.mnemonic.Some? then MnemonicMode
    else NoInputMode
  }

  /** After validation at most one input method is active, so the order of `run`'s tests is immaterial. */
  lemma ValidParamsSelectOneMode(p: Params)
    requires ValidateParams(p).Valid?
    ensures SelectedMode(p) == PromptMode <==> p.prompt
    ensures SelectedMode(p) == GenerateMode <==> p.generate
    ensures SelectedMode(p) == MnemonicMode <==> p.mnemonic.Some?
    ensures SelectedMode(p) == NoInputMode <==> !p.prompt && !p.generate && p.mnemonic.None?
  {
    assert !Violates(p, InputMethodCheck);
  }

  /** How `run` ends. */
  datatype Outcome =
    | Rejected(error: ParamError)    // validate_params raised typer.BadParameter
    | ExamplesShown                  // no input method: examples shown, sys.exit(1)
    | NetworkBlocked                 // check_network_security stopped the run
    | Failed                         // an exception was echoed, sys.exit(1); this includes
                                     // click's Abort from a prompt at the end of the input
    | Done(request: DeriveRequest)   // accounts derived, stored when asked, printed

  /** Python's `s or ""` on a `str | None`: both None and "" give "". */
  function OrEmpty(s: Option<string>): (r: string)
    ensures r == s.GetOr("")
    ensures r == "" <==> s.None? || s == Some("")
  {
    if s.Some? && s.value != "" then s.value else ""
  }

  /**
   * The input stage of `run` for a selected input method: the network guard, then
   * the prompt loop, the generator or the given mnemonic. Gives the mnemonic and
   * passphrase obtained (or how the run ends without them) and the events so far.
   */
  function InputStage(p: Params, w: World): (Result<(string, string), Outcome>, seq<Event>)
    requires SelectedMode(p) != NoInputMode
  {
    var guard := [NetworkCheck(p.allowInternetRisk)];
    if !w.networkPasses then (Err(NetworkBlocked), guard)
    else
      match SelectedMode(p)
      case PromptMode =>
        (match FirstValid(w.isValidMnemonic, w.input, 0)
         case None => (Err(Failed), guard + RetryEvents(|w.input|) + [AskMnemonic, EchoError])
         case Some(k) =>
           var events := guard + RetryEvents(k) + [AskMnemonic, AskPassphrase];
           if k + 1 < |w.input| then (Ok((w.input[k], w.input[k + 1])), events) else (Err(Failed), events + [EchoError]))
      case GenerateMode =>
        (match w.generateMnemonic(p.words)
         case None => (Err(Failed), guard + [GenerateMnemonic(p.words), EchoError])
         case Some(m) =>
           if p.generatePassphrase then
             (match w.generatedPassphrase
              case None => (Err(Failed), guard + [GenerateMnemonic(p.words), GeneratePassphrase, EchoError])
              case Some(pass) => (Ok((m, pass)), guard + [GenerateMnemonic(p.words), GeneratePassphrase]))
           else if |w.input| > 0 then (Ok((m, w.input[0])), guard + [GenerateMnemonic(p.words), AskPassphrase])
           else (Err(Failed), guard + [GenerateMnemonic(p.words), AskPassphrase, EchoError]))
      case MnemonicMode => (Ok((p.mnemonic.value, OrEmpty(p.passphrase))), guard)
  }

  /** The request `run` hands to `derive_accounts`, or the outcome it ends with before that. */
  function Acquire(p: Params, w: World): Result<DeriveRequest, Outcome> {
    match ValidateParams(p)
    case Invalid(e) => Err(Rejected(e))
    case Valid =>
      if SelectedMode(p) == NoInputMode then Err(ExamplesShown)
      else
        match InputStage(p, w).0
        case Err(o) => Err(o)
        case Ok((m, pass)) => Ok(DeriveRequest(p.coin, m, pass, p.derivationPath, p.limit))
  }

  /** `coin`, `derivation_path` and `limit` reach `derive_accounts` unchanged. */
  lemma AcquireForwardsOptions(p: Params, w: World)
    requires Acquire(p, w).Ok?
    ensures Acquire(p, w).value.coin == p.coin
    ensures Acquire(p, w).value.derivationPath == p.derivationPath
    ensures Acquire(p, w).value.limit == p.limit
  {
  }

  /**
   * In prompt mode the mnemonic is the first valid entry of the input, so it
   * satisfies `is_valid_mnemonic`, and the passphrase is the entry after it.
   */
  lemma PromptedMnemonicIsValid(p: Params, w: World)
    requires p.prompt && Acquire(p, w).Ok?
    ensures FirstValid(w.isValidMnemonic, w.input, 0).Some?
    ensures w.isValidMnemonic(Acquire(p, w).value.mnemonic)
    ensures Acquire(p, w).value.mnemonic == w.input[FirstValid(w.isValidMnemonic, w.input, 0).value]
    ensures Acquire(p, w).value.passphrase == w.input[FirstValid(w.isValidMnemonic, w.input, 0).value + 1]
  {
  }

  /**
   * With `--mnemonic`, the value is passed on whatever `is_valid_mnemonic` says of
   * it, and a missing or empty `--passphrase` both become "".
   */
  lemma GivenMnemonicPassedUnchecked(p: Params, w: World)
    requires ValidateParams(p).Valid? && p.mnemonic.Some? && w.networkPasses
    ensures Acquire(p, w) == Ok(DeriveRequest(p.coin, p.mnemonic.value, p.passphrase.GetOr(""), p.derivationPath, p.limit))
    ensures p.passphrase.None? || p.passphrase == Some("") ==> Acquire(p, w).value.passphrase == ""
  {
    ValidParamsSelectOneMode(p);
  }

  /**
   * In generate mode the mnemonic is whatever `generate_mnemonic(words)` returns,
   * and the word count reaches it unchecked; when the generator raises, `run` fails.
   */
  lemma GeneratedMnemonicUsed(p: Params, w: World)
    requires ValidateParams(p).Valid? && p.generate && w.networkPasses
    ensures w.generateMnemonic(p.words).None? ==> Acquire(p, w) == Err(Failed)
    ensures Acquire(p, w).Ok? ==> w.generateMnemonic(p.words) == Some(Acquire(p, w).value.mnemonic)
    ensures p.generatePassphrase && w.generateMnemonic(p.words).Some? && w.generatedPassphrase.None? ==>
      Acquire(p, w) == Err(Failed)
    ensures Acquire(p, w).Ok? && p.generatePassphrase ==> w.generatedPassphrase == Some(Acquire(p, w).value.passphrase)
    ensures Acquire(p, w).Ok? && !p.generatePassphrase ==> Acquire(p, w).value.passphrase == w.input[0]
  {
    ValidParamsSelectOneMode(p);
  }

  /**
   * The mnemonic prompt loop of `run`: read entries until one is valid, echoing
   * "invalid mnemonic" after each rejected one.
   */
  method PromptForMnemonic(valid: string -> bool, input: seq<string>, from: nat)
    returns (mnemonic: Option<string>, next: nat, events: seq<Event>)
    requires from <= |input|
    ensures FirstValid(valid, input, from).None? ==>
      mnemonic == None && next == |input| && events == RetryEvents(|input| - from) + [AskMnemonic]
    ensures FirstValid(valid, input, from).Some? ==>
      var k := FirstValid(valid, input, from).value;
      mnemonic == Some(input[k]) && next == k + 1 && events == RetryEvents(k - from) + [AskMnemonic]
  {
    var pos := from;
    events := [];
    while true
      invariant from <= pos <= |input|
      invariant forall k :: from <= k < pos ==> !valid(input[k])
      invariant events == RetryEvents(pos - from)
      decreases |input| - pos
    {
      events := events + [AskMnemonic];
      if pos == |input| {
        return None, pos, events;
      }
      var entry := input[pos];
      pos := pos + 1;
      if valid(entry) {
        FirstValidAt(valid, input, from, pos - 1);
        return Some(entry), pos, events;
      }
      events := events + [InvalidMnemonic];
    }
  }

  /** The events of the input stage of `run`. */
  predicate InputStageEvent(e: Event) {
    e.NetworkCheck? || e.AskMnemonic? || e.InvalidMnemonic? || e.AskPassphrase?
    || e.GenerateMnemonic? || e.GeneratePassphrase? || e.EchoError?
  }

  /**
   * The input branches of `run` (an input method is selected): the network guard,
   * then the prompt loop, the generator or the given mnemonic.
   */
  method ObtainSecrets(p: Params, w: World) returns (secrets: Result<(string, string), Outcome>, trace: seq<Event>)
    requires SelectedMode(p) != NoInputMode
    ensures (secrets, trace) == InputStage(p, w)
  {
    trace := [NetworkCheck(p.allowInternetRisk)];
    if !w.networkPasses {
      return Err(NetworkBlocked), trace;
    }
    if p.prompt {
      var entry, next, events := PromptForMnemonic(w.isValidMnemonic, w.input, 0);
      trace := trace + events;
      if entry.None? {
        assert trace + [EchoError] == [NetworkCheck(p.allowInternetRisk)] + RetryEvents(|w.input|) + [AskMnemonic, EchoError];
        return Err(Failed), trace + [EchoError];
      }
      trace := trace + [AskPassphrase];
      assert trace == [NetworkCheck(p.allowInternetRisk)] + RetryEvents(next - 1) + [AskMnemonic, AskPassphrase];
      if next == |w.input| {
        return Err(Failed), trace + [EchoError];
      }
      secrets := Ok((entry.value, w.input[next]));
    } else if p.generate {
      trace := trace + [GenerateMnemonic(p.words)];
      var generated := w.generateMnemonic(p.words);
      if generated.None? {
        assert trace + [EchoError] == [NetworkCheck(p.allowInternetRisk)] + [GenerateMnemonic(p.words), EchoError];
        return Err(Failed), trace + [EchoError];
      }
      if p.generatePassphrase {
        trace := trace + [GeneratePassphrase];
        assert trace == [NetworkCheck(p.allowInternetRisk)] + [GenerateMnemonic(p.words), GeneratePassphrase];
        if w.generatedPassphrase.None? {
          assert trace + [EchoError] == [NetworkCheck(p.allowInternetRisk)] + [GenerateMnemonic(p.words), GeneratePassphrase, EchoError];
          return Err(Failed), trace + [EchoError];
        }
        secrets := Ok((generated.value, w.generatedPassphrase.value));
      } else {
        trace := trace + [AskPassphrase];
        assert trace == [NetworkCheck(p.allowInternetRisk)] + [GenerateMnemonic(p.words), AskPassphrase];
        if |w.input| == 0 {
          assert trace + [EchoError] == [NetworkCheck(p.allowInternetRisk)] + [GenerateMnemonic(p.words), AskPassphrase, EchoError];
          return Err(Failed), trace + [EchoError];
        }
        secrets := Ok((generated.value, w.input[0]));
      }
    } else {
      secrets := Ok((p.mnemonic.value, OrEmpty(p.passphrase)));
    }
  }

  /**
   * The network guard is the first event of the input stage and the only one of
   * its kind; when it fails nothing else happens.
   */
  lemma InputStageGuardFirst(p: Params, w: World)
    requires SelectedMode(p) != NoInputMode
    ensures var t := InputStage(p, w).1;
      |t| > 0 && t[0] == NetworkCheck(p.allowInternetRisk)
      && (forall i :: 0 < i < |t| ==> InputStageEvent(t[i]) && !t[i].NetworkCheck?)
      && (!w.networkPasses ==> t == [NetworkCheck(p.allowInternetRisk)])
      && (InputStage(p, w).0.Err? && InputStage(p, w).0.error.Failed? ==> t[|t| - 1] == EchoError)
  {
  }

  /** The events of the output stage of `run` after `derive_accounts`. */
  predicate OutputStageEvent(e: Event) {
    e.AskEncryptionPassword? || e.Store? || e.PrintAccounts? || e.EchoError?
  }

  /**
   * The output stage of `run`: derive, store when an output directory is given
   * (with an encryption password only under `--encrypt`), then print, showing
   * secrets only when nothing is stored. Gives how the run ends and its events.
   */
  function OutputStage(p: Params, w: World, request: DeriveRequest): (Outcome, seq<Event>) {
    var derive := [DeriveAccounts(request)];
    if w.deriveFails(request) then (Failed, derive + [EchoError])
    else if p.outputDir.None? then (Done(request), derive + [PrintAccounts(request, true)])
    else
      var ask := if p.encrypt then [AskEncryptionPassword] else [];
      if p.encrypt && w.encryptionPassword.None? then (Failed, derive + ask + [EchoError])
      else
      var password := if p.encrypt then w.encryptionPassword else None;
      var stored := derive + ask + [Store(request, p.outputDir.value, password)];
      if w.storeFails then (Failed, stored + [EchoError])
      else (Done(request), stored + [PrintAccounts(request, false)])
  }

  /** The output stage, as `run` executes it. */
  method DeriveAndOutput(p: Params, w: World, request: DeriveRequest) returns (outcome: Outcome, trace: seq<Event>)
    ensures (outcome, trace) == OutputStage(p, w, request)
  {
    trace := [DeriveAccounts(request)];
    if w.deriveFails(request) {
      return Failed, trace + [EchoError];
    }
    if p.outputDir.Some? {
      var password: Option<string> := None;
      if p.encrypt {
        trace := trace + [AskEncryptionPassword];
        password := w.encryptionPassword;
        if password.None? {
          return Failed, trace + [EchoError];
        }
      }
      trace := trace + [Store(request, p.outputDir.value, password)];
      assert trace == [DeriveAccounts(request)] + (if p.encrypt then [AskEncryptionPassword] else [])
        + [Store(request, p.outputDir.value, if p.encrypt then w.encryptionPassword else None)];
      if w.storeFails {
        return Failed, trace + [EchoError];
      }
    }
    trace := trace + [PrintAccounts(request, p.outputDir.None?)];
    outcome := Done(request);
  }

  /**
   * The output stage derives first and then only asks for the encryption password,
   * stores, prints or echoes an error. It succeeds iff derivation succeeds and
   * storage, when attempted, succeeds. The encryption password is asked for iff
   * derivation succeeded with an output directory and `--encrypt`; storage uses
   * it; printing shows secrets iff there is no output directory.
   */
  lemma OutputStageDecisions(p: Params, w: World, request: DeriveRequest)
    ensures var (o, t) := OutputStage(p, w, request);
      |t| > 0 && t[0] == DeriveAccounts(request)
      && (forall i :: 0 < i < |t| ==> OutputStageEvent(t[i]))
      && (o == Done(request) <==>
            !w.deriveFails(request)
            && !(p.outputDir.Some? && ((p.encrypt && w.encryptionPassword.None?) || w.storeFails)))
      && (o == Done(request) || o == Failed)
      && (o.Failed? ==> t[|t| - 1] == EchoError)
      && (o.Done? ==> t[|t| - 1] == PrintAccounts(request, p.outputDir.None?))
      && (forall e :: e in t && e.PrintAccounts? ==> e.showSensitive == p.outputDir.None?)
      && (AskEncryptionPassword in t <==> !w.deriveFails(request) && p.outputDir.Some? && p.encrypt)
      && (forall e :: e in t && e.Store? ==>
            e == Store(request, p.outputDir.value, if p.encrypt then w.encryptionPassword else None)
            && !w.deriveFails(request) && p.outputDir.Some? && (p.encrypt ==> e.password.Some?))
      && (forall e :: e in t && e.DeriveAccounts? ==> e.request == request)
      && (!w.deriveFails(request) && p.outputDir.Some? && !(p.encrypt && w.encryptionPassword.None?) ==>
            Store(request, p.outputDir.value, if p.encrypt then w.encryptionPassword else None) in t)
  {
  }

  /** The outcome of `run` and the events it produces. */
  function RunResult(p: Params, w: World): (Outcome, seq<Event>) {
    match ValidateParams(p)
    case Invalid(e) => (Rejected(e), [])
    case Valid =>
      if SelectedMode(p) == NoInputMode then (ExamplesShown, [ShowExamples])
      else
        var (secrets, before) := InputStage(p, w);
        match secrets
        case Err(o) => (o, before)
        case Ok((m, pass)) =>
          var (o, after) := OutputStage(p, w, DeriveRequest(p.coin, m, pass, p.derivationPath, p.limit));
          (o, before + after)
  }

  /**
   * `run`: validate; with no input method show the examples; otherwise obtain the
   * secrets behind the network guard and hand them to the output stage.
   */
  method Run(p: Params, w: World) returns (outcome: Outcome, trace: seq<Event>)
    ensures (outcome, trace) == RunResult(p, w)
  {
    var v := ValidateParams(p);
    if v.Invalid? {
      return Rejected(v.error), [];
    }
    if SelectedMode(p) == NoInputMode {
      return ExamplesShown, [ShowExamples];
    }
    var secrets, before := ObtainSecrets(p, w);
    if secrets.Err? {
      return secrets.error, before;
    }
    var request := DeriveRequest(p.coin, secrets.value.0, secrets.value.1, p.derivationPath, p.limit);
    var after;
    outcome, after := DeriveAndOutput(p, w, request);
    trace := before + after;
  }

  /** Until derivation, `run` follows `Acquire`: it ends with `Acquire`'s outcome or derives its request. */
  lemma RunFollowsAcquire(p: Params, w: World)
    ensures var (o, t) := RunResult(p, w);
      (Acquire(p, w).Err? ==> o == Acquire(p, w).error && forall i :: 0 <= i < |t| ==> !t[i].DeriveAccounts?)
      && (Acquire(p, w).Ok? ==> (o, t) == (OutputStage(p, w, Acquire(p, w).value).0, InputStage(p, w).1 + OutputStage(p, w, Acquire(p, w).value).1))
  {
  }

  /** Validation comes first: a rejected record and a record without an input method do nothing else. */
  lemma RunValidatesFirst(p: Params, w: World)
    ensures ValidateParams(p).Invalid? ==> RunResult(p, w) == (Rejected(ValidateParams(p).error), [])
    ensures ValidateParams(p).Valid? && SelectedMode(p) == NoInputMode ==> RunResult(p, w) == (ExamplesShown, [ShowExamples])
    ensures ValidateParams(p).Valid? && SelectedMode(p) == NoInputMode ==> !p.prompt && !p.generate && p.mnemonic.None?
  {
  }

  /** The events of a run that reaches derivation: the input stage followed by the output stage. */
  lemma RunTraceSplit(p: Params, w: World)
    requires Acquire(p, w).Ok?
    ensures ValidateParams(p).Valid? && SelectedMode(p) != NoInputMode
    ensures RunResult(p, w) ==
      (OutputStage(p, w, Acquire(p, w).value).0, InputStage(p, w).1 + OutputStage(p, w, Acquire(p, w).value).1)
  {
  }

  /**
   * Every run with an input method starts with the network guard, and a failing
   * guard ends the run at once.
   */
  lemma RunGuardFirst(p: Params, w: World)
    requires ValidateParams(p).Valid? && SelectedMode(p) != NoInputMode
    ensures var (o, t) := RunResult(p, w);
      |t| > 0 && t[0] == NetworkCheck(p.allowInternetRisk)
      && (!w.networkPasses ==> (o, t) == (NetworkBlocked, [NetworkCheck(p.allowInternetRisk)]))
  {
    InputStageGuardFirst(p, w);
    if Acquire(p, w).Ok? {
      RunTraceSplit(p, w);
    }
  }

  /** The network guard runs at most once, and never after the first event. */
  lemma RunGuardOnce(p: Params, w: World)
    ensures var t := RunResult(p, w).1;
      forall i :: 0 < i < |t| ==> !t[i].NetworkCheck?
  {
    var t := RunResult(p, w).1;
    if ValidateParams(p).Valid? && SelectedMode(p) != NoInputMode {
      InputStageGuardFirst(p, w);
      var before := InputStage(p, w).1;
      if Acquire(p, w).Ok? {
        RunTraceSplit(p, w);
        OutputStageDecisions(p, w, Acquire(p, w).value);
        var after := OutputStage(p, w, Acquire(p, w).value).1;
        assert t == before + after;
        forall i | 0 < i < |t| ensures !t[i].NetworkCheck? {
          if i < |before| {
            assert t[i] == before[i];
          } else {
            assert t[i] == after[i - |before|];
          }
        }
      } else {
        assert t == before;
      }
    }
  }

  /**
   * Every event that brings a mnemonic or passphrase into memory, or derives from
   * them, comes after the network guard, and only when the guard passed.
   */
  lemma RunSecretsAfterGuard(p: Params, w: World)
    ensures var t := RunResult(p, w).1;
      forall i :: 0 <= i < |t| && TouchesSecret(t[i]) ==>
        0 < i && t[0] == NetworkCheck(p.allowInternetRisk) && w.networkPasses
  {
    var t := RunResult(p, w).1;
    if ValidateParams(p).Valid? && SelectedMode(p) != NoInputMode {
      RunGuardFirst(p, w);
    }
  }

  /**
   * In prompt mode the input is read up to its first valid mnemonic, each rejected
   * entry echoed as invalid, and then the passphrase is asked for.
   */
  lemma RunPromptReadsToFirstValid(p: Params, w: World)
    requires ValidateParams(p).Valid? && p.prompt && w.networkPasses
    ensures match FirstValid(w.isValidMnemonic, w.input, 0)
      case None =>
        RunResult(p, w) == (Failed, [NetworkCheck(p.allowInternetRisk)] + RetryEvents(|w.input|) + [AskMnemonic, EchoError])
      case Some(k) =>
        var t := RunResult(p, w).1;
        |t| >= 2 * k + 3 && t[..2 * k + 3] == [NetworkCheck(p.allowInternetRisk)] + RetryEvents(k) + [AskMnemonic, AskPassphrase]
  {
  }

  /**
   * A prompt that meets the end of the input raises click's `Abort`, which the
   * `except Exception` of `run` catches: the run fails with an error echo and
   * derives nothing. This covers the mnemonic prompt, the passphrase prompt after
   * it, and the passphrase prompt of generate mode.
   */
  lemma RunEndOfInputFails(p: Params, w: World)
    requires ValidateParams(p).Valid? && w.networkPasses
    requires (p.prompt && (FirstValid(w.isValidMnemonic, w.input, 0).None?
                           || FirstValid(w.isValidMnemonic, w.input, 0).value + 1 == |w.input|))
             || (p.generate && !p.generatePassphrase && w.generateMnemonic(p.words).Some? && |w.input| == 0)
    ensures var (o, t) := RunResult(p, w);
      o == Failed && |t| > 0 && t[|t| - 1] == EchoError && (forall e :: e in t ==> !e.DeriveAccounts?)
  {
    ValidParamsSelectOneMode(p);
  }

  /**
   * Every event of a run that is not part of the input stage (or the examples)
   * comes from the output stage of `Acquire`'s request, and all of that stage's
   * events occur.
   */
  lemma RunLaterEvents(p: Params, w: World)
    ensures var t := RunResult(p, w).1;
      (forall e :: e in t && !InputStageEvent(e) && e != ShowExamples ==>
         Acquire(p, w).Ok? && e in OutputStage(p, w, Acquire(p, w).value).1)
      && (Acquire(p, w).Ok? ==> forall e :: e in OutputStage(p, w, Acquire(p, w).value).1 ==> e in t)
  {
  }

  /**
   * The run is done iff derivation, the encryption prompt and any storing
   * succeed; a done run ends by printing.
   */
  lemma RunOutcomeAfterDerive(p: Params, w: World)
    requires Acquire(p, w).Ok?
    ensures var (o, t) := RunResult(p, w);
      (o == Done(Acquire(p, w).value) <==>
         !w.deriveFails(Acquire(p, w).value)
         && !(p.outputDir.Some? && ((p.encrypt && w.encryptionPassword.None?) || w.storeFails)))
      && (o == Done(Acquire(p, w).value) || o == Failed)
      && (o.Done? ==> |t| > 0 && t[|t| - 1] == PrintAccounts(o.request, p.outputDir.None?))
      && (o.Failed? ==> |t| > 0 && t[|t| - 1] == EchoError)
  {
  }

  /**
   * When `prompt_encryption_password` raises, the `except Exception` of `run`
   * catches it: the run fails with the error echo straight after the prompt, and
   * nothing is stored or printed.
   */
  lemma RunEncryptionPromptFails(p: Params, w: World)
    requires Acquire(p, w).Ok? && !w.deriveFails(Acquire(p, w).value)
    requires p.outputDir.Some? && p.encrypt && w.encryptionPassword.None?
    ensures var (o, t) := RunResult(p, w);
      o == Failed && |t| >= 2 && t[|t| - 2..] == [AskEncryptionPassword, EchoError]
      && (forall e :: e in t ==> !e.Store? && !e.PrintAccounts?)
  {
    RunTraceSplit(p, w);
    InputStageGuardFirst(p, w);
  }

  /**
   * The encryption password is asked for iff accounts were derived, an output
   * directory is set and `--encrypt` is on.
   */
  lemma RunAsksEncryptionPassword(p: Params, w: World)
    ensures AskEncryptionPassword in RunResult(p, w).1 <==>
      Acquire(p, w).Ok? && !w.deriveFails(Acquire(p, w).value) && p.outputDir.Some? && p.encrypt
  {
  }

  /** Printing shows secrets iff there is no output directory, i.e. nothing is stored. */
  lemma RunPrintsSensitiveOnlyWithoutOutputDir(p: Params, w: World)
    ensures var t := RunResult(p, w).1;
      forall e :: e in t && e.PrintAccounts? ==> e.showSensitive == p.outputDir.None?
  {
    RunLaterEvents(p, w);
    if Acquire(p, w).Ok? {
      OutputStageDecisions(p, w, Acquire(p, w).value);
    }
  }

  /**
   * Whatever is stored is the derived request, in the given directory, with the
   * encryption password exactly under `--encrypt`; and it is stored whenever
   * derivation succeeds with an output directory and, under `--encrypt`, the
   * password prompt returns.
   */
  lemma RunStoresDerivedAccounts(p: Params, w: World)
    ensures var t := RunResult(p, w).1;
      (forall e :: e in t && e.Store? ==>
         Acquire(p, w) == Ok(e.request) && !w.deriveFails(e.request)
         && p.outputDir == Some(e.outputDir)
         && e.password == (if p.encrypt then w.encryptionPassword else None)
         && (p.encrypt ==> e.password.Some?))
      && (Acquire(p, w).Ok? && !w.deriveFails(Acquire(p, w).value) && p.outputDir.Some?
          && !(p.encrypt && w.encryptionPassword.None?) ==>
            Store(Acquire(p, w).value, p.outputDir.value, if p.encrypt then w.encryptionPassword else None) in t)
  {
    RunLaterEvents(p, w);
    if Acquire(p, w).Ok? {
      OutputStageDecisions(p, w, Acquire(p, w).value);
    }
  }

  /** Derivation only ever sees `Acquire`'s request. */
  lemma RunDerivesAcquiredRequest(p: Params, w: World)
    ensures var t := RunResult(p, w).1;
      forall e :: e in t && e.DeriveAccounts? ==> Acquire(p, w) == Ok(e.request)
  {
    RunLaterEvents(p, w);
    if Acquire(p, w).Ok? {
      OutputStageDecisions(p, w, Acquire(p, w).value);
    }
  }
}
