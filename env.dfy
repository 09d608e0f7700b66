/**
 * The world a command runs in. Everything the command layer calls but does not
 * implement (mnemonic validation and generation, passphrase generation, the
 * network guard, account derivation, storage) is a field of `World`, so the model
 * makes no assumption about its internals. What the command does to the outside
 * world is recorded as a trace of `Event`s. Interactive prompts read the lines of
 * `World.input` in order; a prompt issued after the last line has no answer.
 */
module Env {
  import opened Types

  /** The arguments of one call of `derive_accounts`. */
  datatype DeriveRequest = DeriveRequest(
    coin: Coin,
    mnemonic: string,
    passphrase: string,
    derivationPath: Option<string>,
    limit: int)

  /** What a command asks of, or shows to, the outside world. */
  datatype Event =
    | NetworkCheck(allowInternetRisk: bool)       // check_network_security(...)
    | AskMnemonic                                 // a (hidden) mnemonic prompt
    | InvalidMnemonic                             // echo "invalid mnemonic"
    | AskPassphrase                               // a (hidden) passphrase prompt
    | GenerateMnemonic(words: int)                // generate_mnemonic(words)
    | GeneratePassphrase                          // generate_passphrase()
    | ShowExamples                                // show_derive_examples()
    | DeriveAccounts(request: DeriveRequest)      // derive_accounts(...)
    | AskEncryptionPassword                       // prompt_encryption_password()
    | Store(request: DeriveRequest, outputDir: string, password: Option<string>)
    | PrintAccounts(request: DeriveRequest, showSensitive: bool)
    | EchoKeys(mnemonic: string, passphrase: string, request: DeriveRequest)
    | EchoError                                   // echo str(e) of a caught exception

  /** True of the events that bring a mnemonic or a passphrase into memory, or use them. */
  predicate TouchesSecret(e: Event) {
    e.AskMnemonic? || e.GenerateMnemonic? || e.AskPassphrase? || e.GeneratePassphrase? || e.DeriveAccounts?
  }

  /** The answers of the foreign calls a command makes. */
  datatype World = World(
    input: seq<string>,                        // the lines typed at the prompts, in order
    isValidMnemonic: string -> bool,           // mm_mnemonic.mnemonic.is_valid_mnemonic
    networkPasses: bool,                       // check_network_security returns (else it exits)
    generateMnemonic: int -> Option<string>,   // generate_mnemonic(words); None: it raises
    generatedPassphrase: Option<string>,       // generate_passphrase(); None: it raises
    encryptionPassword: Option<string>,        // prompt_encryption_password(); None: it raises
    deriveFails: DeriveRequest -> bool,        // derive_accounts raises for this request
    storeFails: bool)                          // output.store_derived_accounts raises

  /**
   * The position of the first entry of `input` at or after `from` that `valid`
   * accepts, or None when there is none.
   */
  function FirstValid(valid: string -> bool, input: seq<string>, from: nat): (r: Option<nat>)
    requires from <= |input|
    ensures r.Some? ==> from <= r.value < |input| && valid(input[r.value])
    ensures r.Some? ==> forall k :: from <= k < r.value ==> !valid(input[k])
    ensures r.None? <==> forall k :: from <= k < |input| ==> !valid(input[k])
    decreases |input| - from
  {
    if from == |input| then None
    else if valid(input[from]) then Some(from)
    else FirstValid(valid, input, from + 1)
  }

  /** The first accepted entry is determined by the entries before it. */
  lemma FirstValidAt(valid: string -> bool, input: seq<string>, from: nat, k: nat)
    requires from <= k < |input|
    requires valid(input[k])
    requires forall j :: from <= j < k ==> !valid(input[j])
    ensures FirstValid(valid, input, from) == Some(k)
  {
  }

  /** The events of `n` rejected mnemonic entries: each is asked for, then found invalid. */
  function RetryEvents(n: nat): (r: seq<Event>)
    ensures |r| == 2 * n
    ensures forall i :: 0 <= i < |r| ==> r[i] == (if i % 2 == 0 then AskMnemonic else InvalidMnemonic)
  {
    if n == 0 then [] else RetryEvents(n - 1) + [AskMnemonic, InvalidMnemonic]
  }
}
