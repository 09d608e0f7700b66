/**
 * The `show` command (src/mm_mnemonic/cli/commands/show.py): keep the given
 * mnemonic when it is valid, otherwise read hidden entries until one is; take the
 * given passphrase, or ask for one only when none was given; derive the accounts
 * and echo them together with the secrets that produced them.
 */
module Show {
  import opened Types
  import opened Env

  /** The options of `show` (class ShowCmdParams). */
  datatype ShowCmdParams = ShowCmdParams(
    mnemonic: string,
    passphrase: Option<string>,
    coin: Coin,
    derivationPath: Option<string>,
    limit: int)

  /** How `run` ends. */
  datatype Outcome =
    | InputExhausted                 // a getpass prompt found no more input
    | Raised                         // derive_accounts raised; show.py does not catch it
    | Done(request: DeriveRequest)   // accounts derived and echoed

  /**
   * The mnemonic `run` settles on and the position of the next unread input entry:
   * the given one when valid (nothing read), otherwise the first valid entry.
   */
  function ChosenMnemonic(p: ShowCmdParams, w: World): Option<(string, nat)> {
    if w.isValidMnemonic(p.mnemonic) then Some((p.mnemonic, 0))
    else
      match FirstValid(w.isValidMnemonic, w.input, 0)
      case None => None
      case Some(k) => Some((w.input[k], k + 1))
  }

  /** The request `run` hands to `derive_accounts`, or the outcome it ends with before that. */
  function Acquire(p: ShowCmdParams, w: World): Result<DeriveRequest, Outcome> {
    match ChosenMnemonic(p, w)
    case None => Err(InputExhausted)
    case Some((m, next)) =>
      if p.passphrase.Some? then Ok(DeriveRequest(p.coin, m, p.passphrase.value, p.derivationPath, p.limit))
      else if next < |w.input| then Ok(DeriveRequest(p.coin, m, w.input[next], p.derivationPath, p.limit))
      else Err(InputExhausted)
  }

  /** The mnemonic that reaches `derive_accounts` always satisfies `is_valid_mnemonic`. */
  lemma DerivedMnemonicIsValid(p: ShowCmdParams, w: World)
    requires Acquire(p, w).Ok?
    ensures w.isValidMnemonic(Acquire(p, w).value.mnemonic)
  {
  }

  /** A valid given mnemonic is kept as it is. */
  lemma ValidGivenMnemonicKept(p: ShowCmdParams, w: World)
    requires w.isValidMnemonic(p.mnemonic)
    ensures p.passphrase.Some? ==>
      Acquire(p, w) == Ok(DeriveRequest(p.coin, p.mnemonic, p.passphrase.value, p.derivationPath, p.limit))
    ensures Acquire(p, w).Ok? ==> Acquire(p, w).value.mnemonic == p.mnemonic
  {
  }

  /**
   * An invalid given mnemonic is replaced by the first input entry that
   * `is_valid_mnemonic` accepts; every entry before it is rejected.
   */
  lemma FirstValidEntryKept(p: ShowCmdParams, w: World)
    requires !w.isValidMnemonic(p.mnemonic) && Acquire(p, w).Ok?
    ensures FirstValid(w.isValidMnemonic, w.input, 0).Some?
    ensures Acquire(p, w).value.mnemonic == w.input[FirstValid(w.isValidMnemonic, w.input, 0).value]
    ensures forall j :: 0 <= j < FirstValid(w.isValidMnemonic, w.input, 0).value ==> !w.isValidMnemonic(w.input[j])
  {
  }

  /**
   * A given passphrase is used as it is, the empty one included; only a missing
   * one is read from the input, right after the mnemonic.
   */
  lemma PassphraseSelection(p: ShowCmdParams, w: World)
    requires Acquire(p, w).Ok?
    ensures p.passphrase.Some? ==> Acquire(p, w).value.passphrase == p.passphrase.value
    ensures p.passphrase.None? ==>
      ChosenMnemonic(p, w).value.1 < |w.input| &&
      Acquire(p, w).value.passphrase == w.input[ChosenMnemonic(p, w).value.1]
  {
  }

  /**
   * `derive.py` turns a given empty passphrase and a missing one alike into "";
   * `show.py` keeps a given "" and prompts when it is missing.
   */
  lemma EmptyPassphraseKept(p: ShowCmdParams, w: World)
    requires p.passphrase == Some("") && ChosenMnemonic(p, w).Some?
    ensures Acquire(p, w).Ok? && Acquire(p, w).value.passphrase == ""
  {
  }

  /** `coin`, `derivation_path` and `limit` reach `derive_accounts` unchanged. */
  lemma AcquireForwardsOptions(p: ShowCmdParams, w: World)
    requires Acquire(p, w).Ok?
    ensures Acquire(p, w).value.coin == p.coin
    ensures Acquire(p, w).value.derivationPath == p.derivationPath
    ensures Acquire(p, w).value.limit == p.limit
  {
  }

  /**
   * The events of the re-prompt loop: none when the given mnemonic is valid,
   * otherwise one prompt per entry read and an "invalid mnemonic" echo after each
   * rejected one.
   */
  function SettleEvents(p: ShowCmdParams, w: World): (r: seq<Event>)
    ensures forall i :: 0 <= i < |r| ==> r[i] == AskMnemonic || r[i] == InvalidMnemonic
  {
    if w.isValidMnemonic(p.mnemonic) then []
    else
      match FirstValid(w.isValidMnemonic, w.input, 0)
      case None => RetryEvents(|w.input|) + [AskMnemonic]
      case Some(k) => RetryEvents(k) + [AskMnemonic]
  }

  /**
   * The re-prompt loop of `run`: keep the given mnemonic when it is valid,
   * otherwise read entries until one is, echoing "invalid mnemonic" after each
   * rejected one.
   */
  method SettleMnemonic(p: ShowCmdParams, w: World) returns (chosen: Option<(string, nat)>, events: seq<Event>)
    ensures chosen == ChosenMnemonic(p, w) && events == SettleEvents(p, w)
    ensures chosen.Some? ==> w.isValidMnemonic(chosen.value.0) && chosen.value.1 <= |w.input|
  {
    var mnemonic := p.mnemonic;
    var pos := 0;
    events := [];
    while true
      invariant 0 <= pos <= |w.input|
      invariant pos == 0 ==> mnemonic == p.mnemonic
      invariant pos > 0 ==> !w.isValidMnemonic(p.mnemonic) && mnemonic == w.input[pos - 1]
      invariant forall k :: 0 <= k < pos ==> !w.isValidMnemonic(w.input[k])
      invariant events == RetryEvents(pos)
      decreases |w.input| - pos
    {
      if !w.isValidMnemonic(mnemonic) {
        events := events + [AskMnemonic];
        if pos == |w.input| {
          return None, events;
        }
        mnemonic := w.input[pos];
        pos := pos + 1;
        if w.isValidMnemonic(mnemonic) {
          FirstValidAt(w.isValidMnemonic, w.input, 0, pos - 1);
          break;
        }
        events := events + [InvalidMnemonic];
      } else {
        break;
      }
    }
    chosen := Some((mnemonic, pos));
  }

  /**
   * The rest of `run` once a valid mnemonic is settled, with `next` the first
   * unread input entry: how the run ends and its events.
   */
  function EchoStage(p: ShowCmdParams, w: World, mnemonic: string, next: nat): (Outcome, seq<Event>) {
    var ask := if p.passphrase.None? then [AskPassphrase] else [];
    if p.passphrase.None? && next >= |w.input| then (InputExhausted, ask)
    else
      var passphrase := if p.passphrase.Some? then p.passphrase.value else w.input[next];
      var request := DeriveRequest(p.coin, mnemonic, passphrase, p.derivationPath, p.limit);
      if w.deriveFails(request) then (Raised, ask + [DeriveAccounts(request)])
      else (Done(request), ask + [DeriveAccounts(request), EchoKeys(mnemonic, passphrase, request)])
  }

  /** The rest of `run`: choose the passphrase, call `derive_accounts`, echo the keys. */
  method DeriveAndEcho(p: ShowCmdParams, w: World, mnemonic: string, next: nat)
    returns (outcome: Outcome, tail: seq<Event>)
    ensures (outcome, tail) == EchoStage(p, w, mnemonic, next)
  {
    tail := [];
    var passphrase: string;
    if p.passphrase.None? {
      tail := [AskPassphrase];
      if next >= |w.input| {
        return InputExhausted, tail;
      }
      passphrase := w.input[next];
    } else {
      passphrase := p.passphrase.value;
    }
    var request := DeriveRequest(p.coin, mnemonic, passphrase, p.derivationPath, p.limit);
    tail := tail + [DeriveAccounts(request)];
    if w.deriveFails(request) {
      return Raised, tail;
    }
    tail := tail + [EchoKeys(mnemonic, passphrase, request)];
    assert tail == (if p.passphrase.None? then [AskPassphrase] else [])
      + [DeriveAccounts(request), EchoKeys(mnemonic, passphrase, request)];
    outcome := Done(request);
  }

  /** The outcome of `run` and the events it produces. */
  function ShowResult(p: ShowCmdParams, w: World): (Outcome, seq<Event>) {
    match ChosenMnemonic(p, w)
    case None => (InputExhausted, SettleEvents(p, w))
    case Some((m, next)) =>
      var (o, tail) := EchoStage(p, w, m, next);
      (o, SettleEvents(p, w) + tail)
  }

  /** `run`: the re-prompt loop, then the passphrase choice, `derive_accounts` and the echo. */
  method Run(p: ShowCmdParams, w: World) returns (outcome: Outcome, trace: seq<Event>)
    ensures (outcome, trace) == ShowResult(p, w)
  {
    var chosen, events := SettleMnemonic(p, w);
    if chosen.None? {
      return InputExhausted, events;
    }
    var tail;
    outcome, tail := DeriveAndEcho(p, w, chosen.value.0, chosen.value.1);
    trace := events + tail;
  }

  /** The events after the mnemonic is settled. */
  predicate AfterMnemonicEvent(e: Event) {
    e.AskPassphrase? || e.DeriveAccounts? || e.EchoKeys?
  }

  /**
   * The events after the loop: the passphrase prompt exactly when none was given,
   * then derivation of `Acquire`'s request, then the echo of the same secrets.
   */
  lemma EchoStageEvents(p: ShowCmdParams, w: World, mnemonic: string, next: nat)
    requires ChosenMnemonic(p, w) == Some((mnemonic, next))
    ensures var (o, t) := EchoStage(p, w, mnemonic, next);
      (forall e :: e in t ==> AfterMnemonicEvent(e))
      && (AskPassphrase in t <==> p.passphrase.None?)
      && (forall e :: e in t && e.DeriveAccounts? ==> Acquire(p, w) == Ok(e.request))
      && (forall i :: 0 <= i < |t| && t[i].EchoKeys? ==>
            0 < i && t[i - 1] == DeriveAccounts(t[i].request)
            && t[i].mnemonic == t[i].request.mnemonic && t[i].passphrase == t[i].request.passphrase)
      && (Acquire(p, w).Err? ==> o == Acquire(p, w).error)
      && (Acquire(p, w).Ok? ==>
            o == (if w.deriveFails(Acquire(p, w).value) then Raised else Done(Acquire(p, w).value)))
  {
  }

  /**
   * `run` ends as `Acquire` says: with its error, or after deriving its request,
   * done unless derivation raises.
   */
  lemma RunOutcome(p: ShowCmdParams, w: World)
    ensures var o := ShowResult(p, w).0;
      (Acquire(p, w).Err? ==> o == Acquire(p, w).error)
      && (Acquire(p, w).Ok? ==>
            o == (if w.deriveFails(Acquire(p, w).value) then Raised else Done(Acquire(p, w).value)))
  {
  }

  /**
   * The mnemonic prompts: none when the given mnemonic is valid; otherwise the
   * input is read up to its first valid entry.
   */
  lemma RunMnemonicPrompts(p: ShowCmdParams, w: World)
    ensures var t := ShowResult(p, w).1;
      (w.isValidMnemonic(p.mnemonic) ==> AskMnemonic !in t && InvalidMnemonic !in t)
      && (!w.isValidMnemonic(p.mnemonic) ==>
            match FirstValid(w.isValidMnemonic, w.input, 0)
            case None => t == RetryEvents(|w.input|) + [AskMnemonic]
            case Some(k) => |t| >= 2 * k + 1 && t[..2 * k + 1] == RetryEvents(k) + [AskMnemonic])
  {
  }

  /** The passphrase is asked for exactly when none was given and a valid mnemonic was settled. */
  lemma RunAsksPassphrase(p: ShowCmdParams, w: World)
    ensures AskPassphrase in ShowResult(p, w).1 <==> p.passphrase.None? && ChosenMnemonic(p, w).Some?
  {
    var settle := SettleEvents(p, w);
    assert AskPassphrase !in settle;
    if ChosenMnemonic(p, w).Some? {
      var (m, next) := ChosenMnemonic(p, w).value;
      EchoStageEvents(p, w, m, next);
    }
  }

  /**
   * Derivation sees `Acquire`'s request, whose mnemonic is valid, and no network
   * check happens anywhere in `run`.
   */
  lemma RunDerivesValidMnemonic(p: ShowCmdParams, w: World)
    ensures var t := ShowResult(p, w).1;
      (forall e :: e in t && e.DeriveAccounts? ==>
         Acquire(p, w) == Ok(e.request) && w.isValidMnemonic(e.request.mnemonic))
      && (forall e :: e in t ==> !e.NetworkCheck?)
  {
    var t := ShowResult(p, w).1;
    var settle := SettleEvents(p, w);
    assert forall e :: e in settle ==> e == AskMnemonic || e == InvalidMnemonic;
    if ChosenMnemonic(p, w).Some? {
      var (m, next) := ChosenMnemonic(p, w).value;
      EchoStageEvents(p, w, m, next);
      forall e | e in t && e.DeriveAccounts? ensures w.isValidMnemonic(e.request.mnemonic) {
        DerivedMnemonicIsValid(p, w);
      }
    }
  }

  /** The echo directly follows derivation and shows the mnemonic and passphrase it used. */
  lemma RunEchoesDerivedSecrets(p: ShowCmdParams, w: World)
    ensures var t := ShowResult(p, w).1;
      forall i :: 0 <= i < |t| && t[i].EchoKeys? ==>
        0 < i && t[i - 1] == DeriveAccounts(t[i].request)
        && t[i].mnemonic == t[i].request.mnemonic && t[i].passphrase == t[i].request.passphrase
  {
    var t := ShowResult(p, w).1;
    var settle := SettleEvents(p, w);
    if ChosenMnemonic(p, w).Some? {
      var (m, next) := ChosenMnemonic(p, w).value;
      EchoStageEvents(p, w, m, next);
      var tail := EchoStage(p, w, m, next).1;
      assert t == settle + tail;
      forall i | 0 <= i < |t| && t[i].EchoKeys?
        ensures i > |settle| && t[i] == tail[i - |settle|] && t[i - 1] == tail[i - 1 - |settle|]
      {
        assert !(t[i] == AskMnemonic || t[i] == InvalidMnemonic);
      }
    }
  }
}
