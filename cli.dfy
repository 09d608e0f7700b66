/**
 * The command functions of the CLI (src/mm_mnemonic/cli/cli.py): the word-count
 * callback, and the records `new`, `batch1`, `batch2` and `show` build from their
 * options and defaults before handing them to the command implementations.
 *
 * An option the user leaves out is `None` in the argument records below; the
 * command function then sees its declared default.
 */
module Cli {
  import opened Types
  import Show

  /** `typer.BadParameter` raised by the word-count callback. */
  datatype BadParameter = BadParameter(message: string)

  const WordsMessage: string := "Words must be one of: 12, 15, 21, 24"

  /** The word counts the callback admits, in the order the source lists them. */
  const AllowedWords: seq<int> := [12, 15, 21, 24]

  /** `mnemonic_words_callback`: admit exactly 12, 15, 21 and 24 words, unchanged. */
  function MnemonicWordsCallback(value: int): (r: Result<int, BadParameter>)
    ensures r.Ok? <==> value == 12 || value == 15 || value == 21 || value == 24
    ensures r.Ok? ==> r.value == value
    ensures r.Err? ==> r.error.message == WordsMessage
  {
    if value !in AllowedWords then Err(BadParameter(WordsMessage)) else Ok(value)
  }

  /** Feeding an admitted value back through the callback admits it again, unchanged. */
  lemma CallbackIdempotent(value: int)
    requires MnemonicWordsCallback(value).Ok?
    ensures MnemonicWordsCallback(MnemonicWordsCallback(value).value) == MnemonicWordsCallback(value)
  {
  }

  /**
   * The number of words of a BIP-0039 mnemonic over `ent` bits of entropy: the
   * entropy plus a checksum of `ent / 32` bits, in groups of 11 bits per word.
   */
  function Bip39Words(ent: int): int {
    (ent + ent / 32) / 11
  }

  /** The entropy lengths BIP-0039 permits: 128 to 256 bits in steps of 32. */
  predicate Bip39Entropy(ent: int) {
    128 <= ent <= 256 && ent % 32 == 0
  }

  /**
   * Every word count the callback admits is a BIP-0039 one; of the BIP-0039 word
   * counts it admits all but the 18-word (192-bit) one.
   */
  lemma CallbackVersusBip39(ent: int)
    requires Bip39Entropy(ent)
    ensures MnemonicWordsCallback(Bip39Words(ent)).Ok? <==> ent != 192
    ensures ent == 192 ==> Bip39Words(ent) == 18
  {
  }

  /** Each admitted word count comes from a BIP-0039 entropy length other than 192 bits. */
  lemma AdmittedWordsAreBip39(value: int)
    requires MnemonicWordsCallback(value).Ok?
    ensures value == Bip39Words(value * 32 / 3) && Bip39Entropy(value * 32 / 3) && value * 32 / 3 != 192
  {
  }

  /** The records the command implementations receive (built with keyword arguments). */
  datatype NewCmdParams = NewCmdParams(
    coin: Coin, derivationPath: Option<string>, limit: int, columns: string, noPassphrase: bool, words: int)
  datatype Batch1CmdParams = Batch1CmdParams(
    batches: int, outputDir: string, coin: Coin, derivationPath: Option<string>, limit: int)
  datatype Batch2CmdParams = Batch2CmdParams(
    batches: int, outputDir: string, coin: Coin, derivationPath: Option<string>, limit: int, words: int)

  /** The options of `new` as typed; `None` where left out. */
  datatype NewArgs = NewArgs(
    coin: Option<Coin>, limit: Option<int>, derivationPath: Option<string>,
    words: Option<int>, noPassphrase: Option<bool>, columns: Option<string>)

  /** The options of `batch1`; `--batches`, `--limit` and `--output-dir` are required. */
  datatype Batch1Args = Batch1Args(
    batches: int, limit: int, outputDir: string, coin: Option<Coin>, derivationPath: Option<string>)

  /** The options of `batch2`; `--batches`, `--limit` and `--output-dir` are required. */
  datatype Batch2Args = Batch2Args(
    batches: int, limit: int, outputDir: string, coin: Option<Coin>, derivationPath: Option<string>,
    words: Option<int>)

  /** The options of `show`. */
  datatype ShowArgs = ShowArgs(
    coin: Option<Coin>, mnemonic: Option<string>, passphrase: Option<string>,
    derivationPath: Option<string>, limit: Option<int>)

  /**
   * `new_command`: the word count (typed or the default 24) goes through the
   * callback, which typer runs before the command; every option reaches
   * `NewCmdParams` as typed, or as its default.
   */
  function NewCommand(a: NewArgs): (r: Result<NewCmdParams, BadParameter>)
    ensures r.Ok? <==> a.words.GetOr(24) in {12, 15, 21, 24}
    ensures r.Ok? ==>
      r.value.coin == a.coin.GetOr(ETH) && r.value.limit == a.limit.GetOr(10)
      && r.value.derivationPath == a.derivationPath && r.value.words == a.words.GetOr(24)
      && r.value.noPassphrase == a.noPassphrase.GetOr(false) && r.value.columns == a.columns.GetOr("all")
  {
    match MnemonicWordsCallback(a.words.GetOr(24))
    case Err(e) => Err(e)
    case Ok(words) =>
      Ok(NewCmdParams(
        coin := a.coin.GetOr(ETH), derivationPath := a.derivationPath, limit := a.limit.GetOr(10),
        columns := a.columns.GetOr("all"), noPassphrase := a.noPassphrase.GetOr(false), words := words))
  }

  /** With no options at all, `new` succeeds: the default 24 words pass the callback. */
  lemma NewDefaults()
    ensures NewCommand(NewArgs(None, None, None, None, None, None))
      == Ok(NewCmdParams(ETH, None, 10, "all", false, 24))
  {
  }

  /** `batch1_command`: required options as typed, `coin` ETH and no derivation path by default. */
  function Batch1Command(a: Batch1Args): (r: Batch1CmdParams)
    ensures r.batches == a.batches && r.limit == a.limit && r.outputDir == a.outputDir
    ensures r.coin == a.coin.GetOr(ETH) && r.derivationPath == a.derivationPath
  {
    Batch1CmdParams(
      batches := a.batches, outputDir := a.outputDir, coin := a.coin.GetOr(ETH),
      derivationPath := a.derivationPath, limit := a.limit)
  }

  /**
   * `batch2_command`: as `batch1`, plus `--words` (default 24), which has no
   * callback and reaches `Batch2CmdParams` unchecked.
   */
  function Batch2Command(a: Batch2Args): (r: Batch2CmdParams)
    ensures r.batches == a.batches && r.limit == a.limit && r.outputDir == a.outputDir
    ensures r.coin == a.coin.GetOr(ETH) && r.derivationPath == a.derivationPath
    ensures r.words == a.words.GetOr(24)
  {
    Batch2CmdParams(
      batches := a.batches, outputDir := a.outputDir, coin := a.coin.GetOr(ETH),
      derivationPath := a.derivationPath, limit := a.limit, words := a.words.GetOr(24))
  }

  /** A word count the `new` callback rejects still reaches `batch2`'s record. */
  lemma Batch2WordsUnchecked(a: Batch2Args, words: int)
    requires a.words == Some(words) && MnemonicWordsCallback(words).Err?
    ensures Batch2Command(a).words == words
    ensures NewCommand(NewArgs(a.coin, None, a.derivationPath, Some(words), None, None)).Err?
  {
  }

  /**
   * `show_command`: `coin` ETH, `mnemonic` "", no passphrase, no derivation path
   * and `limit` 10 by default; typed values pass through unchanged.
   */
  function ShowCommand(a: ShowArgs): (r: Show.ShowCmdParams)
    ensures r.mnemonic == a.mnemonic.GetOr("") && r.passphrase == a.passphrase
    ensures r.coin == a.coin.GetOr(ETH) && r.derivationPath == a.derivationPath && r.limit == a.limit.GetOr(10)
  {
    Show.ShowCmdParams(
      mnemonic := a.mnemonic.GetOr(""), passphrase := a.passphrase, coin := a.coin.GetOr(ETH),
      derivationPath := a.derivationPath, limit := a.limit.GetOr(10))
  }

  /** The defaults every command shares: ETH, no derivation path, and 10 accounts where there is a default limit. */
  lemma SharedDefaults(batches: int, limit: int, outputDir: string)
    ensures NewCommand(NewArgs(None, None, None, None, None, None)).value.coin == ETH
    ensures Batch1Command(Batch1Args(batches, limit, outputDir, None, None)).coin == ETH
    ensures Batch2Command(Batch2Args(batches, limit, outputDir, None, None, None)).coin == ETH
    ensures ShowCommand(ShowArgs(None, None, None, None, None)).coin == ETH
    ensures NewCommand(NewArgs(None, None, None, None, None, None)).value.derivationPath == None
    ensures Batch1Command(Batch1Args(batches, limit, outputDir, None, None)).derivationPath == None
    ensures Batch2Command(Batch2Args(batches, limit, outputDir, None, None, None)).derivationPath == None
    ensures ShowCommand(ShowArgs(None, None, None, None, None)).derivationPath == None
    ensures NewCommand(NewArgs(None, None, None, None, None, None)).value.limit == 10
    ensures ShowCommand(ShowArgs(None, None, None, None, None)).limit == 10
    ensures ShowCommand(ShowArgs(None, None, None, None, None)) == Show.ShowCmdParams("", None, ETH, None, 10)
  {
  }
}
