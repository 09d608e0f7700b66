# mm-mnemonic command layer, in Dafny

This project models the command layer of mm-mnemonic. This is the code that decides which secrets
reach account derivation, and how:

- `derive` validates its options, picks an input method (prompt, generate or a given mnemonic),
  runs the network guard before any secret is obtained, derives the accounts, stores them
  (encrypted when asked), and prints them, hiding secrets when they were stored.
- `show` keeps a valid given mnemonic or re-prompts until a valid one is typed, picks the
  passphrase, derives, and echoes the keys.
- The CLI functions validate the `--words` option of `new` and build each command's parameter
  record from the options and their defaults.

Files:

- `types.dfy` (`Types`): `Option`, `Result` and `Coin`.
- `env.dfy` (`Env`): the outside world. Every foreign call is a field of `World`:
  `is_valid_mnemonic` is an uninterpreted predicate. Each of the generators and the encryption
  prompt either gives a fixed answer or raises. `check_network_security`, `derive_accounts` and storage are pass/fail
  answers. Interactive prompts read `World.input` in order. What a command does outside is
  recorded as a trace of `Event`s. `FirstValid` gives the first input entry the predicate accepts.
- `derive.dfy` (`Derive`): `Params`, `validate_params` as the function `ValidateParams`, and
  `run` as methods over the world and the trace. Each method is proved equal to a
  specification function: `InputStage`, `OutputStage` and `RunResult`. The properties of `run`
  are lemmas about those functions. `Acquire` gives the request `run` hands to
  `derive_accounts`, or the outcome it ends with before that.
- `show.dfy` (`Show`): `ShowCmdParams` and `run`, in the same shape: `SettleEvents`,
  `EchoStage`, `ShowResult` and its own `Acquire`.
- `cli.dfy` (`Cli`): `mnemonic_words_callback` and the four command functions.

Two facts about the code are worth stating on their own:

- Every input branch of `derive.py` calls `check_network_security` before it obtains a secret.
  `show.py` calls no network check. `Show.RunDerivesValidMnemonic` states that its trace holds no
  network check.
- `derive --mnemonic` passes the given value on without calling `is_valid_mnemonic`.
  `Derive.GivenMnemonicPassedUnchecked` states this.

## Model

| member | source | states |
|---|---|---|
| `Derive.ValidateParams` | src/mm_mnemonic/commands/derive.py:29-61 | Succeeds iff none of the five forbidden combinations holds. On failure the error belongs to a violated check, and every check earlier in source order passes. The multiple-input error lists the active methods in the order prompt, generate, mnemonic. |
| `Derive.Active` | src/mm_mnemonic/commands/derive.py:38 | Every entry the comprehension keeps is active. `ActiveKeepsExactlyActive` proves the converse, and `ActiveAppend` proves the order is kept. |
| `Derive.ActiveKeepsExactlyActive` | src/mm_mnemonic/commands/derive.py:37-38 | An entry is kept by the comprehension iff it is in `input_methods` and active. The result is never longer than the list. |
| `Derive.ActiveAppend` | src/mm_mnemonic/commands/derive.py:38 | Filtering a concatenation filters each part and keeps them in order. So the kept entries keep their order in `input_methods`. |
| `Derive.Names` | src/mm_mnemonic/commands/derive.py:41 | Keeps the order and the length, and takes each name. |
| `Derive.ActiveInputMethods` | src/mm_mnemonic/commands/derive.py:37-41 | Filtering the fixed `input_methods` list gives exactly the active names, in the order prompt, generate, mnemonic. |
| `Derive.ValidateParamsCases` | src/mm_mnemonic/commands/derive.py:31-61 | `--encrypt` without `--output-dir` is always that error. Two or more input methods give the multiple-methods error naming them. Prompt with a passphrase, generate-passphrase without generate, and words other than 24 without generate are each rejected. With `--generate`, any word count passes. |
| `Derive.ValidParamsSelectOneMode` | src/mm_mnemonic/commands/derive.py:65-89 | After validation succeeds, each branch of `run` is taken iff its own condition holds, so the order of the tests does not matter. |
| `Derive.OrEmpty` | src/mm_mnemonic/commands/derive.py:86 | `passphrase or ""` is the passphrase with "" for None, and gives "" exactly for None and "". |
| `Derive.AcquireForwardsOptions` | src/mm_mnemonic/commands/derive.py:91-97 | `coin`, `derivation_path` and `limit` reach `derive_accounts` unchanged. |
| `Derive.PromptedMnemonicIsValid` | src/mm_mnemonic/commands/derive.py:67-74 | In prompt mode the mnemonic is the first input entry that is a valid mnemonic, so it is valid. The passphrase is the entry after it. |
| `Derive.GivenMnemonicPassedUnchecked` | src/mm_mnemonic/commands/derive.py:83-86 | With `--mnemonic` the value is derived from whatever the validity predicate says of it. The passphrase is the given one or "", so None and "" both become "". |
| `Derive.GeneratedMnemonicUsed` | src/mm_mnemonic/commands/derive.py:75-82 | In generate mode the mnemonic is what the generator returns for `words`. A mnemonic or passphrase generator that raises fails the run. The passphrase is generated under `--generate-passphrase` and typed otherwise. |
| `Derive.PromptForMnemonic` | src/mm_mnemonic/commands/derive.py:69-73 | The prompt loop returns the first valid entry from its start position, or no result when the input runs out. Its events are one ask plus one "invalid mnemonic" echo per rejected entry. |
| `Derive.ObtainSecrets` | src/mm_mnemonic/commands/derive.py:66-86 | The input branches of `run` produce exactly the secrets and events of `InputStage`: the network guard, then the prompt loop, the generator or the given mnemonic. |
| `Derive.InputStageGuardFirst` | src/mm_mnemonic/commands/derive.py:67-86 | In every input branch the network check is the first event and occurs once. A failing check ends the stage at once. A generator that raises ends the stage with the error echo. |
| `Derive.DeriveAndOutput` | src/mm_mnemonic/commands/derive.py:91-113 | The derive, store and print part of `run` produces exactly the outcome and events of `OutputStage`. That includes the caught failure of the encryption-password prompt. |
| `Derive.OutputStageDecisions` | src/mm_mnemonic/commands/derive.py:91-113 | Derivation comes first. The stage is done iff derivation succeeds, and, with an output directory, the encryption-password prompt returns (under `--encrypt`) and storage succeeds. The encryption password is asked for iff derivation succeeded, an output directory is set and `--encrypt` is on. Storage uses that password. It happens whenever derivation succeeds with an output directory and the prompt returns. Printing shows secrets iff no output directory is set. A failure ends with the error echo. |
| `Derive.Run` | src/mm_mnemonic/commands/derive.py:64-113 | `run` produces exactly the outcome and events of `RunResult`: validation, then the examples or the input stage, then the output stage. |
| `Derive.RunFollowsAcquire` | src/mm_mnemonic/commands/derive.py:64-97 | A run that cannot reach derivation ends with `Acquire`'s outcome and derives nothing. A run that can is the input stage followed by the output stage for `Acquire`'s request. |
| `Derive.RunValidatesFirst` | src/mm_mnemonic/commands/derive.py:64-89 | A rejected record produces no event. A valid record with no input method only shows the examples and exits. |
| `Derive.RunGuardFirst` | src/mm_mnemonic/commands/derive.py:66-84 | Every run with an input method starts with the network check. A failing check ends the run at once, with nothing obtained. |
| `Derive.RunGuardOnce` | src/mm_mnemonic/commands/derive.py:64-113 | The network check never occurs after the first event, so it runs at most once per run. |
| `Derive.RunSecretsAfterGuard` | src/mm_mnemonic/commands/derive.py:66-97 | Every event that brings a mnemonic or passphrase into memory, or derives from them, comes after the network check, and only when it passed. |
| `Derive.RunPromptReadsToFirstValid` | src/mm_mnemonic/commands/derive.py:67-74 | In prompt mode the run reads the input up to its first valid mnemonic and echoes "invalid mnemonic" for each rejected entry. It then asks for the passphrase. If no valid entry exists, the mnemonic prompt meets the end of the input. The run then fails with the error echo. |
| `Derive.RunEndOfInputFails` | src/mm_mnemonic/commands/derive.py:69-113 | A prompt that meets the end of the input raises click's `Abort`, and the `except Exception` catches it. So the run fails, ends with the error echo and derives nothing. This covers the mnemonic prompt, the passphrase prompt after it, and the passphrase prompt of generate mode. |
| `Derive.RunOutcomeAfterDerive` | src/mm_mnemonic/commands/derive.py:91-113 | Once derivation is reached, the run is done iff derivation, the encryption-password prompt (when asked) and any storing succeed. It fails otherwise. A done run ends by printing and a failed one by echoing the error. |
| `Derive.RunAsksEncryptionPassword` | src/mm_mnemonic/commands/derive.py:99-103 | The encryption password is asked for iff accounts were derived, `output_dir` is set and `encrypt` is on. |
| `Derive.RunPrintsSensitiveOnlyWithoutOutputDir` | src/mm_mnemonic/commands/derive.py:105-107 | Every print has `show_sensitive` exactly when `output_dir is None`. |
| `Derive.RunStoresDerivedAccounts` | src/mm_mnemonic/commands/derive.py:99-103 | Storage receives the derived request, the given directory, and the password exactly under `--encrypt`. It always happens when derivation succeeds with an output directory and the encryption-password prompt, under `--encrypt`, returns. |
| `Derive.RunEncryptionPromptFails` | src/mm_mnemonic/commands/derive.py:99-113 | When `prompt_encryption_password` raises, the `except Exception` catches it. The run fails with the error echo straight after the prompt, and nothing is stored or printed. |
| `Derive.RunDerivesAcquiredRequest` | src/mm_mnemonic/commands/derive.py:91-97 | Derivation only ever receives `Acquire`'s request. |
| `Env.FirstValid` | src/mm_mnemonic/cli/commands/show.py:23-28 | The position found holds a valid entry and every earlier one is invalid. No position is found iff no entry is valid. |
| `Env.FirstValidAt` | src/mm_mnemonic/commands/derive.py:69-72 | A valid entry preceded only by invalid ones is the first valid entry. |
| `Env.RetryEvents` | src/mm_mnemonic/commands/derive.py:70-73 | `n` rejected entries give `2n` events alternating mnemonic prompt and "invalid mnemonic". |
| `Show.DerivedMnemonicIsValid` | src/mm_mnemonic/cli/commands/show.py:21-40 | The mnemonic passed to `derive_accounts` always satisfies `is_valid_mnemonic`. |
| `Show.ValidGivenMnemonicKept` | src/mm_mnemonic/cli/commands/show.py:22-24 | A valid given mnemonic is the one used, as it is. |
| `Show.FirstValidEntryKept` | src/mm_mnemonic/cli/commands/show.py:23-28 | For an invalid given mnemonic, the one kept is the first valid input entry, and all entries before it are invalid. |
| `Show.PassphraseSelection` | src/mm_mnemonic/cli/commands/show.py:32 | A given passphrase, "" included, is used as it is. A missing one is the input entry right after the mnemonic. |
| `Show.EmptyPassphraseKept` | src/mm_mnemonic/cli/commands/show.py:32 | A given empty passphrase is kept as "" and never replaced by a prompt. |
| `Show.AcquireForwardsOptions` | src/mm_mnemonic/cli/commands/show.py:34-40 | `coin`, `derivation_path` and `limit` reach `derive_accounts` unchanged. |
| `Show.SettleEvents` | src/mm_mnemonic/cli/commands/show.py:23-28 | The re-prompt loop produces only mnemonic prompts and "invalid mnemonic" echoes. |
| `Show.SettleMnemonic` | src/mm_mnemonic/cli/commands/show.py:22-30 | The loop settles on `ChosenMnemonic` and produces exactly `SettleEvents`. Any mnemonic it settles on is valid. |
| `Show.DeriveAndEcho` | src/mm_mnemonic/cli/commands/show.py:32-41 | The passphrase choice, derivation and echo produce exactly the outcome and events of `EchoStage`. |
| `Show.Run` | src/mm_mnemonic/cli/commands/show.py:21-41 | `run` produces exactly the outcome and events of `ShowResult`: the loop's events followed by the echo stage. |
| `Show.EchoStageEvents` | src/mm_mnemonic/cli/commands/show.py:32-41 | After the loop, the passphrase is prompted iff none was given. Derivation receives `Acquire`'s request. The echo directly follows derivation and shows the mnemonic and passphrase it used. An exception from derivation propagates. |
| `Show.RunOutcome` | src/mm_mnemonic/cli/commands/show.py:21-41 | `run` ends with `Acquire`'s error, or after deriving its request. It is done unless derivation raises. |
| `Show.RunMnemonicPrompts` | src/mm_mnemonic/cli/commands/show.py:22-30 | A valid given mnemonic means no mnemonic prompt and no echo. Otherwise the input is read up to its first valid entry, one prompt per entry. |
| `Show.RunAsksPassphrase` | src/mm_mnemonic/cli/commands/show.py:32 | The passphrase is asked for iff none was given and a valid mnemonic was settled. |
| `Show.RunDerivesValidMnemonic` | src/mm_mnemonic/cli/commands/show.py:21-40 | Derivation receives `Acquire`'s request, whose mnemonic satisfies `is_valid_mnemonic`. No network check occurs in `run`. |
| `Show.RunEchoesDerivedSecrets` | src/mm_mnemonic/cli/commands/show.py:34-41 | Every echo of keys directly follows the derivation, and shows the mnemonic and passphrase that derivation used. |
| `Cli.MnemonicWordsCallback` | src/mm_mnemonic/cli/cli.py:27-30 | Accepts exactly 12, 15, 21 and 24, and returns the value unchanged. Every other integer is rejected with the fixed message. |
| `Cli.CallbackIdempotent` | src/mm_mnemonic/cli/cli.py:27-30 | Passing an accepted value through again gives the same result. |
| `Cli.CallbackVersusBip39` | src/mm_mnemonic/cli/cli.py:28-29 | Over the BIP-0039 entropy lengths (128 to 256 bits in steps of 32), the callback accepts the word count of each length except 192 bits, i.e. 18 words. |
| `Cli.AdmittedWordsAreBip39` | src/mm_mnemonic/cli/cli.py:28 | Each accepted word count is the BIP-0039 word count of an entropy length other than 192 bits. |
| `Cli.NewCommand` | src/mm_mnemonic/cli/cli.py:33-51 | Succeeds iff the word count, as typed or the default 24, is accepted by the callback. Every option reaches `NewCmdParams` as typed or as its default (ETH, 10, no path, 24, false, "all"). |
| `Cli.NewDefaults` | src/mm_mnemonic/cli/cli.py:35-45 | With no options, `new` succeeds with ETH, no derivation path, limit 10, columns "all", a passphrase, and 24 words. |
| `Cli.Batch1Command` | src/mm_mnemonic/cli/cli.py:54-64 | The required options are forwarded as typed. `coin` defaults to ETH and the derivation path to None. |
| `Cli.Batch2Command` | src/mm_mnemonic/cli/cli.py:67-85 | Like batch1, plus `words`, which defaults to 24 and is forwarded without a callback. |
| `Cli.Batch2WordsUnchecked` | src/mm_mnemonic/cli/cli.py:74-85 | A word count that `new` rejects through its callback still reaches `Batch2CmdParams`. |
| `Cli.ShowCommand` | src/mm_mnemonic/cli/cli.py:95-105 | Typed values pass through unchanged. The defaults are ETH, mnemonic "", no passphrase, no derivation path and limit 10. |
| `Cli.SharedDefaults` | src/mm_mnemonic/cli/cli.py:35-101 | `coin` defaults to ETH and the derivation path to None for new, batch1, batch2 and show. `limit` defaults to 10 for new and show. `show` defaults to an empty mnemonic and no passphrase. |

## Left out

- Cryptography and everything behind the imported modules are not part of this model:
  BIP39 generation and validation, seed derivation, per-chain key and address derivation, path
  templates, passphrase generation, the network probe, encryption and file storage. Each is a
  field of `World`, with no assumption about its internals.
- The SOL deriver (`src/mm_mnemonic/chains/sol.py`) only raises `NotImplementedError`, so it has
  no behaviour to model.
- The implementations of the new, batch1, batch2, verify-batch2 and check commands are not part of
  this model. Only the records the CLI builds for them are modelled. `verify_batch2_command` and
  `check_command` only forward to those implementations, so they are left out too.
- Typer wiring, help text, `show_derive_examples`'s text, `version_callback`, and the echoed and
  printed text are left out. Printing is an event carrying the request and the sensitivity flag.
- Exceptions are coarse. Any exception in `derive`'s `try` becomes the outcome `Failed` with an
  error echo, which stands for `sys.exit(1)`. This includes click's `Abort` from a prompt that
  meets the end of the input. A network guard that stops the run becomes
  `NetworkBlocked`, which stands for `typer.Exit`.
- Derive.ObtainSecrets: reads one input entry per prompt. It does not model typer's
  confirmation prompt for the generated-mnemonic passphrase. An empty passphrase entry is taken
  as the `default=""` answer.
- Derive.PromptForMnemonic: the mnemonic prompt has no default, so click asks again after an
  empty entry without returning it. The model passes the empty entry to `is_valid_mnemonic`
  instead. If the predicate rejects it, the trace holds an extra "invalid mnemonic" echo.
- Derive.Params: `output_dir` is a `Path`, which is always truthy, so `if params.output_dir:` is
  modelled as "is not None".
- Show.Run: models a derivation exception as the outcome `Raised`, because `show.py` has no
  handler. The traceback is not modelled.
- The `limit` and `batches` values are not range-checked at this layer and are forwarded as plain
  integers.
