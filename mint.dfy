/** The workflow of `OnMintCommand` in neo-cli/CLI/MainService.Other.cs:
    normalise the signers, look up the asset, check the amount, build the
    transfer-then-mint script, dry-run it, and, with a wallet open, have the
    wallet make the transaction and relay it once the operator says yes. The
    engine, the wallet and the console are parameters: the wallet's
    MakeTransaction is a function whose result says whether it threw and
    what, the operator's answer a boolean, and the two places where the
    command's own code can throw are inputs saying whether they do. */
module MintCommand {
  import opened NeoTypes
  import opened SignerNormalizer

  /** The steps the command can reach, in the only order it reaches them. */
  datatype Step = BuildScript | DryRun | MakeTransaction | Prompt | Relay

  const MintSteps: seq<Step> := [BuildScript, DryRun, MakeTransaction, Prompt, Relay]

  /** How the command ends. `container` is the unsigned transaction the dry run
      executes with; `tx` is the one the wallet made. `ExceptionThrown` is an
      exception the command's own code throws and does not catch: the asset
      lookup failing, or the amount not fitting the conversion for the
      transfer call. `WalletException` is an exception from MakeTransaction
      other than InvalidOperationException, which the command does not catch
      either. */
  datatype Outcome =
    | ExceptionThrown
    | IncorrectAmountFormat
    | DryRunOnly(container: Transaction)
    | TransactionError(container: Transaction, message: string)
    | WalletException(container: Transaction)
    | RelayDeclined(container: Transaction, tx: Transaction)
    | Relayed(container: Transaction, tx: Transaction)

  /** What the wallet's MakeTransaction does: return a network-ready
      transaction, throw an InvalidOperationException with a message (the
      only exception the command catches), or throw anything else. */
  datatype MakeResult = Made(tx: Transaction) | InvalidOperation(message: string) | OtherException

  /** The wallet's MakeTransaction for a script, an optional sender and the
      signers. */
  type MakeTransactionFn = (Script, Option<UInt160>, seq<Signer>) -> MakeResult

  /** The amount check: the amount parsed with the asset's decimals (in the
      asset's smallest units, None when it does not parse) and is positive. */
  predicate AmountAccepted(amount: Option<int>): (ok: bool)
    ensures ok ==> amount.Some? && amount.value >= 1
    ensures amount.None? || amount.value <= 0 ==> !ok
  {
    amount.Some? && amount.value > 0
  }

  /** The script is built exactly when the asset was found, the amount passed
      its check and its conversion for the transfer call did not throw. */
  predicate ReachesScript(assetFound: bool, amount: Option<int>, transferUnits: Option<int>) {
    assetFound && AmountAccepted(amount) && transferUnits.Some?
  }

  /** The script the command emits: first `transfer` of `units` of `asset`
      from the sender (possibly null) to `to`, then `mint` on the target
      contract with no arguments. */
  function MintScript(asset: UInt160, scriptHash: UInt160, sender: Option<UInt160>, to: UInt160, units: int): (s: Script)
    ensures |s| == 2
    ensures s[0].scriptHash == asset && s[0].operation == "transfer"
    ensures s[0].args == [Hash160(sender), Hash160(Some(to)), Integer(units)]
    ensures s[1].scriptHash == scriptHash && s[1].operation == "mint" && s[1].args == []
  {
    [AppCall(asset, "transfer", [Hash160(sender), Hash160(Some(to)), Integer(units)]),
     AppCall(scriptHash, "mint", [])]
  }

  /** The steps a run of the command reached and how it ended. */
  datatype Run = Run(steps: seq<Step>, outcome: Outcome)

  /** What the command does for given arguments and collaborator answers.
      `assetFound` says whether the asset descriptor could be read; `amount`
      is the parse of the amount with the asset's decimals; `transferUnits` is
      the amount converted for the transfer call, None when that conversion
      throws; `walletOpen` says whether a wallet is open; `makeTransaction` is
      the wallet's; `relayConfirmed` is the operator's answer to the relay
      prompt. */
  function MintRun(scriptHash: UInt160, asset: UInt160, to: UInt160,
                   assetFound: bool, amount: Option<int>, transferUnits: Option<int>,
                   sender: Option<UInt160>, signerAccounts: Option<seq<UInt160>>,
                   walletOpen: bool, makeTransaction: MakeTransactionFn, relayConfirmed: bool): Run
  {
    if !assetFound then Run([], ExceptionThrown)
    else if !AmountAccepted(amount) then Run([], IncorrectAmountFormat)
    else if transferUnits.None? then Run([], ExceptionThrown)
    else
      var container := Transaction(Normalize(walletOpen, sender, signerAccounts), [], [], 0,
                                   MintScript(asset, scriptHash, sender, to, transferUnits.value));
      if !walletOpen then Run([BuildScript, DryRun], DryRunOnly(container))
      else
        match makeTransaction(container.script, sender, container.signers)
        case InvalidOperation(message) =>
          Run([BuildScript, DryRun, MakeTransaction], TransactionError(container, "Error: " + message))
        case OtherException =>
          Run([BuildScript, DryRun, MakeTransaction], WalletException(container))
        case Made(tx) =>
          if relayConfirmed then Run(MintSteps, Relayed(container, tx))
          else Run([BuildScript, DryRun, MakeTransaction, Prompt], RelayDeclined(container, tx))
  }

  /** OnMintCommand, with the same early returns. `steps` records what the
      command reached, `outcome` how it ended; the lemmas below state what
      that means for every input. */
  method OnMintCommand(scriptHash: UInt160, asset: UInt160, to: UInt160,
                       assetFound: bool, amount: Option<int>, transferUnits: Option<int>,
                       sender: Option<UInt160>, signerAccounts: Option<seq<UInt160>>,
                       walletOpen: bool, makeTransaction: MakeTransactionFn, relayConfirmed: bool)
    returns (steps: seq<Step>, outcome: Outcome)
    ensures Run(steps, outcome) == MintRun(scriptHash, asset, to, assetFound, amount, transferUnits,
                                           sender, signerAccounts, walletOpen, makeTransaction, relayConfirmed)
  {
    var signers := Normalize(walletOpen, sender, signerAccounts);
    steps := [];
    if !assetFound {
      outcome := ExceptionThrown;
      return;
    }
    if !AmountAccepted(amount) {
      outcome := IncorrectAmountFormat;
      return;
    }

    var script: Script := [];
    if transferUnits.None? {
      outcome := ExceptionThrown;
      return;
    }
    script := script + [AppCall(asset, "transfer", [Hash160(sender), Hash160(Some(to)), Integer(transferUnits.value)])];
    script := script + [AppCall(scriptHash, "mint", [])];
    steps := [BuildScript];
    assert script == MintScript(asset, scriptHash, sender, to, transferUnits.value);

    var tx := Transaction(signers, [], [], 0, script);
    var container := tx;
    steps := [BuildScript, DryRun];

    if !walletOpen {
      outcome := DryRunOnly(container);
      return;
    }
    steps := [BuildScript, DryRun, MakeTransaction];
    var made := makeTransaction(tx.script, sender, signers);
    match made {
      case InvalidOperation(message) =>
        outcome := TransactionError(container, "Error: " + message);
        return;
      case OtherException =>
        outcome := WalletException(container);
        return;
      case Made(madeTx) =>
        tx := madeTx;
    }

    steps := [BuildScript, DryRun, MakeTransaction, Prompt];
    if !relayConfirmed {
      outcome := RelayDeclined(container, tx);
      return;
    }
    steps := MintSteps;
    outcome := Relayed(container, tx);
  }

  // ---------------------------------------------------------------------------
  // Properties of the workflow

  /** The steps reached are always a prefix of build, dry run, make
      transaction, prompt, relay: every early return skips all later steps. */
  lemma StepsInOrder(scriptHash: UInt160, asset: UInt160, to: UInt160,
                     assetFound: bool, amount: Option<int>, transferUnits: Option<int>,
                     sender: Option<UInt160>, signerAccounts: Option<seq<UInt160>>,
                     walletOpen: bool, makeTransaction: MakeTransactionFn, relayConfirmed: bool)
    ensures MintRun(scriptHash, asset, to, assetFound, amount, transferUnits,
                    sender, signerAccounts, walletOpen, makeTransaction, relayConfirmed).steps <= MintSteps
  {
  }

  /** A failing asset lookup, an unparseable or non-positive amount, or a
      failing conversion of the amount ends the command before any script is
      built or run; the script is built and dry-run in every other case. */
  lemma AmountGate(scriptHash: UInt160, asset: UInt160, to: UInt160,
                   assetFound: bool, amount: Option<int>, transferUnits: Option<int>,
                   sender: Option<UInt160>, signerAccounts: Option<seq<UInt160>>,
                   walletOpen: bool, makeTransaction: MakeTransactionFn, relayConfirmed: bool)
    ensures var r := MintRun(scriptHash, asset, to, assetFound, amount, transferUnits,
                             sender, signerAccounts, walletOpen, makeTransaction, relayConfirmed);
      (!assetFound ==> r == Run([], ExceptionThrown)) &&
      (assetFound && !AmountAccepted(amount) ==> r == Run([], IncorrectAmountFormat)) &&
      (assetFound && AmountAccepted(amount) && transferUnits.None? ==> r == Run([], ExceptionThrown)) &&
      (BuildScript in r.steps <==> ReachesScript(assetFound, amount, transferUnits)) &&
      (DryRun in r.steps <==> ReachesScript(assetFound, amount, transferUnits))
  {
  }

  /** The dry run executes the script inside an unsigned transaction that
      carries the normalised signers, no witnesses, no attributes, version 0
      and the transfer-then-mint script. */
  lemma DryRunContainer(scriptHash: UInt160, asset: UInt160, to: UInt160,
                        assetFound: bool, amount: Option<int>, transferUnits: Option<int>,
                        sender: Option<UInt160>, signerAccounts: Option<seq<UInt160>>,
                        walletOpen: bool, makeTransaction: MakeTransactionFn, relayConfirmed: bool)
    requires ReachesScript(assetFound, amount, transferUnits)
    ensures var r := MintRun(scriptHash, asset, to, assetFound, amount, transferUnits,
                             sender, signerAccounts, walletOpen, makeTransaction, relayConfirmed);
      !r.outcome.ExceptionThrown? && !r.outcome.IncorrectAmountFormat? &&
      r.outcome.container == Transaction(Normalize(walletOpen, sender, signerAccounts), [], [], 0,
                                         MintScript(asset, scriptHash, sender, to, transferUnits.value))
  {
  }

  /** With no wallet open the command stops right after the dry run; with one
      it goes on to MakeTransaction. */
  lemma WalletGate(scriptHash: UInt160, asset: UInt160, to: UInt160,
                   assetFound: bool, amount: Option<int>, transferUnits: Option<int>,
                   sender: Option<UInt160>, signerAccounts: Option<seq<UInt160>>,
                   walletOpen: bool, makeTransaction: MakeTransactionFn, relayConfirmed: bool)
    ensures var r := MintRun(scriptHash, asset, to, assetFound, amount, transferUnits,
                             sender, signerAccounts, walletOpen, makeTransaction, relayConfirmed);
      (ReachesScript(assetFound, amount, transferUnits) && !walletOpen ==>
         r.steps == [BuildScript, DryRun] && r.outcome.DryRunOnly?) &&
      (MakeTransaction in r.steps <==> ReachesScript(assetFound, amount, transferUnits) && walletOpen)
  {
  }

  /** Once MakeTransaction is reached, the prompt is reached exactly when it
      returns a transaction. An InvalidOperationException ends the command
      with its message after "Error: "; any other exception escapes uncaught,
      after the MakeTransaction step and before the prompt; a made transaction
      is the one offered for relay. */
  lemma MakeTransactionGate(scriptHash: UInt160, asset: UInt160, to: UInt160,
                            assetFound: bool, amount: Option<int>, transferUnits: Option<int>,
                            sender: Option<UInt160>, signerAccounts: Option<seq<UInt160>>,
                            walletOpen: bool, makeTransaction: MakeTransactionFn, relayConfirmed: bool)
    requires ReachesScript(assetFound, amount, transferUnits) && walletOpen
    ensures var r := MintRun(scriptHash, asset, to, assetFound, amount, transferUnits,
                             sender, signerAccounts, walletOpen, makeTransaction, relayConfirmed);
      var made := makeTransaction(MintScript(asset, scriptHash, sender, to, transferUnits.value), sender,
                                  Normalize(walletOpen, sender, signerAccounts));
      (Prompt in r.steps <==> made.Made?) &&
      (!made.Made? ==> r.steps == [BuildScript, DryRun, MakeTransaction]) &&
      (made.InvalidOperation? ==> r.outcome == TransactionError(r.outcome.container, "Error: " + made.message)) &&
      (made.OtherException? ==> r.outcome.WalletException?) &&
      (made.Made? ==> (r.outcome.RelayDeclined? || r.outcome.Relayed?) && r.outcome.tx == made.tx)
  {
  }

  /** The transaction is relayed exactly when the prompt was reached and the
      operator answered yes. */
  lemma RelayGate(scriptHash: UInt160, asset: UInt160, to: UInt160,
                  assetFound: bool, amount: Option<int>, transferUnits: Option<int>,
                  sender: Option<UInt160>, signerAccounts: Option<seq<UInt160>>,
                  walletOpen: bool, makeTransaction: MakeTransactionFn, relayConfirmed: bool)
    ensures var r := MintRun(scriptHash, asset, to, assetFound, amount, transferUnits,
                             sender, signerAccounts, walletOpen, makeTransaction, relayConfirmed);
      (Relay in r.steps <==> Prompt in r.steps && relayConfirmed) &&
      (r.outcome.Relayed? <==> Relay in r.steps)
  {
    var r := MintRun(scriptHash, asset, to, assetFound, amount, transferUnits,
                     sender, signerAccounts, walletOpen, makeTransaction, relayConfirmed);
    if ReachesScript(assetFound, amount, transferUnits) && walletOpen {
      var made := makeTransaction(MintScript(asset, scriptHash, sender, to, transferUnits.value), sender,
                                  Normalize(walletOpen, sender, signerAccounts));
      if made.Made? && relayConfirmed {
        assert r.steps[3] == Prompt && r.steps[4] == Relay;
      } else if made.Made? {
        assert r.steps[3] == Prompt;
      }
    }
  }
}
