# neo-cli `mint` command: signer normalisation and workflow gating

This project models the `mint` console command of the neo-cli node
(`OnMintCommand` in `neo-cli/CLI/MainService.Other.cs`) in Dafny and proves
properties of the model.

The command does two things worth modelling:

- **Signer normalisation** (lines 19-36). Given an optional sender and an
  optional array of signer accounts, it builds the signers of the transaction.
  With no array, or with no wallet open, there are no signers. Otherwise a
  sender found later in the array is moved to the front (only its first
  occurrence is removed, as `List.Remove` does), a sender missing from the
  array is prepended, and a sender already first changes nothing. Every account
  then becomes a `Signer` with scope `CalledByEntry`. Module
  `SignerNormalizer` (signers.dfy) states this as pure functions over
  `seq<UInt160>` with lemmas.
- **Workflow gating** (lines 38-81). The command looks up the asset, checks
  the amount, builds a script that calls `transfer` on the asset and then `mint` on the target
  contract, dry-runs it inside an unsigned transaction, and stops there when no
  wallet is open. With a wallet it asks the wallet to make the transaction,
  stops on an `InvalidOperationException`, asks the operator `Relay tx(no|yes)`
  and relays only on yes. Module `MintCommand` (mint.dfy) models this as a
  method with the same early returns, proved equal to a function `MintRun`
  that gives, for every input, the steps the command reaches and how it ends;
  lemmas about `MintRun` state the gating. The wallet's `MakeTransaction` is
  a function parameter whose result has three cases: a made transaction, an
  `InvalidOperationException` with its message (the only exception the
  command catches, printing `Error: ` and the message), or any other
  exception, which escapes the command after the MakeTransaction step and
  before the prompt. The operator's answer is a boolean parameter, and the
  amount check takes the parse result as an `Option<int>`. The two places
  where the command's own code throws without catching are inputs too: the
  asset lookup failing (line 38), and the amount's conversion for the
  transfer call failing (line 49, for instance when the amount scaled by the
  asset's decimals exceeds the range of `decimal`). Either ends the command
  before any script is built.

Module `NeoTypes` (types.dfy) holds the value types: 20-byte `UInt160`
hashes, `WitnessScope`, `Signer`, contract calls and `Transaction`.

The normalisation does **not** deduplicate: `List.Remove` removes one
occurrence of the sender and nothing else, so other duplicates survive.
`OtherDuplicatesKept` and `RepeatedSenderKept` show duplicates surviving. `NormalizePreservesDistinct` proves the weaker fact the
code does guarantee: a duplicate-free input gives a duplicate-free output.

The read `signerAccounts[0]` at line 24 only happens after `Contains(sender)`
has succeeded. The model performs the same read under the same guard, and
Dafny's bounds check on it is part of the verification of `NormalizeAccounts`.

## Model

| member | source | states |
|---|---|---|
| SignerNormalizer.IndexOf | neo-cli/CLI/MainService.Other.cs:24-27 | the index is -1 exactly when the account is absent; otherwise it is in bounds, holds the account, and no earlier position does |
| SignerNormalizer.Remove | neo-cli/CLI/MainService.Other.cs:26-27 | `List.Remove` leaves a list without the item unchanged; otherwise it deletes exactly the first occurrence, so the length drops by one and the multiset loses one copy |
| SignerNormalizer.NormalizeAccounts | neo-cli/CLI/MainService.Other.cs:22-34 | with a sender the result starts with the sender; with no sender, or the sender already first, the list is unchanged; an absent sender is prepended and the length grows by one; a present sender keeps the length |
| SignerNormalizer.ToSigners | neo-cli/CLI/MainService.Other.cs:35 | one signer per account, signer i carries account i and scope CalledByEntry |
| SignerNormalizer.Normalize | neo-cli/CLI/MainService.Other.cs:19-36 | no array or no wallet gives no signers; every signer has scope CalledByEntry; with an array, an open wallet and a sender, the first signer is the sender with CalledByEntry |
| SignerNormalizer.AccountsOfToSigners | neo-cli/CLI/MainService.Other.cs:35 | the accounts can be read back from the signers unchanged |
| SignerNormalizer.NormalizeAccountsOfSigners | neo-cli/CLI/MainService.Other.cs:19-35 | with an array and an open wallet, signer i's account is account i of the normalised list |
| SignerNormalizer.MoveSenderToFront | neo-cli/CLI/MainService.Other.cs:24-29 | a sender found later in the list ends up first; after it come the accounts that preceded its first occurrence, then the accounts that followed it, in order; the length is unchanged |
| SignerNormalizer.NormalizePermutationOrExtension | neo-cli/CLI/MainService.Other.cs:22-34 | the normalised list is a permutation of the input, or the input plus one copy of the sender when the sender was absent |
| SignerNormalizer.NormalizeSameAccounts | neo-cli/CLI/MainService.Other.cs:22-34 | an account is in the normalised list exactly when it was in the input or is the sender |
| SignerNormalizer.RemoveDistinct | neo-cli/CLI/MainService.Other.cs:26-27 | removing an item from a duplicate-free list leaves a duplicate-free list without that item |
| SignerNormalizer.NormalizePreservesDistinct | neo-cli/CLI/MainService.Other.cs:22-34 | a duplicate-free account list stays duplicate-free |
| SignerNormalizer.OtherDuplicatesKept | neo-cli/CLI/MainService.Other.cs:24-29 | sender A with accounts [B, A, B] gives [A, B, B]: other duplicates are not removed |
| SignerNormalizer.RepeatedSenderKept | neo-cli/CLI/MainService.Other.cs:24-29 | sender A with accounts [B, A, A] gives [A, B, A]: only the first later occurrence of the sender moves |
| SignerNormalizer.ScenarioSenderInList | neo-cli/CLI/MainService.Other.cs:19-36 | sender A with accounts [B, A, C] and an open wallet gives signers [A, B, C], all CalledByEntry |
| SignerNormalizer.ScenarioSenderAbsent | neo-cli/CLI/MainService.Other.cs:30-35 | sender A with accounts [B, C] and an open wallet gives signers [A, B, C], all CalledByEntry |
| MintCommand.AmountAccepted | neo-cli/CLI/MainService.Other.cs:39-43 | an amount passes only when it parsed and is at least one smallest unit; an unparseable, zero or negative amount is rejected |
| MintCommand.MintScript | neo-cli/CLI/MainService.Other.cs:46-51 | the script holds exactly two calls: first `transfer` on the asset with arguments sender (possibly null), recipient and amount, then `mint` on the target contract with no arguments |
| MintCommand.OnMintCommand | neo-cli/CLI/MainService.Other.cs:38-81 | for every input, the steps the command reaches and the way it ends are the ones `MintRun` gives, whose properties the lemmas below state |
| MintCommand.StepsInOrder | neo-cli/CLI/MainService.Other.cs:38-81 | the steps reached are always a prefix of build, dry run, make transaction, prompt, relay: every early return skips all later steps |
| MintCommand.AmountGate | neo-cli/CLI/MainService.Other.cs:38-51 | a failing asset lookup throws before anything; a bad or non-positive amount returns before any script is built; a failing conversion of the amount for the transfer call throws before the script exists; in every other case the script is built and dry-run |
| MintCommand.DryRunContainer | neo-cli/CLI/MainService.Other.cs:45-64 | once the script is built, the dry run uses an unsigned transaction with the normalised signers, no witnesses or attributes, version 0 and the transfer-then-mint script |
| MintCommand.WalletGate | neo-cli/CLI/MainService.Other.cs:67 | with no wallet the command stops right after the dry run; MakeTransaction is reached exactly when the script was built and a wallet is open |
| MintCommand.MakeTransactionGate | neo-cli/CLI/MainService.Other.cs:68-77 | the prompt is reached exactly when MakeTransaction returns a transaction; otherwise the command ends right after MakeTransaction, with `Error: ` and the message for an InvalidOperationException and with the exception escaping for any other; a made transaction is the one offered for relay |
| MintCommand.RelayGate | neo-cli/CLI/MainService.Other.cs:77-81 | the transaction is relayed exactly when the prompt was reached and the operator said yes |

## Left out

- neo-cli/CLI/MainService.Policy.cs: each setter is a `NoWallet` check, one native-contract call and `SendTransaction`; each getter is one `OnInvokeWithResult` call and console output, both going into library code that is not part of this model.
- Script byte encoding: `ScriptBuilder.EmitAppCall` belongs to the VM library, so a script is modelled as the ordered list of its contract calls.
- Amount parsing: `BigDecimal.TryParse` and `AssetDescriptor` (the asset's decimals, read from the chain) are not part of this model. Whether the descriptor can be read enters as a boolean, the parse result as an `Option<int>` in the asset's smallest units.
- OnMintCommand: the transfer amount is an input of its own, separate from the parsed amount of the check, with None when its conversion throws. How `decimal.Parse(amount) * Math.Pow(10, decimals)` computes it (culture-dependent parsing, floating point, the range of `decimal`) is not modelled, so the model does not say when that conversion fails or how its value relates to the checked amount.
- The dry run (`ApplicationEngine.Run` over a ledger snapshot) and `PrintExecutionOutput`: its report does not affect the control flow, so the model records only that the dry run happens and with which transaction.
- `ReadUserInput(...).IsYes()` is not part of this model: the operator's answer is a boolean parameter, true when the answer counts as yes.
- `SignAndSendTx` and the network relay: the model records that the relay step is reached and with which transaction.
- Console messages (`Incorrect Amount Format`, the script hex, the wallet warning printed by `NoWallet`), except the `Error: ` prefix of the MakeTransaction failure message.
- The commented-out `invoke` command (lines 92-137): it is not compiled.
- Whether the wallet is open is one boolean for the whole command: the two `NoWallet()` calls (lines 20 and 67) run in a single-threaded command with nothing in between that opens or closes a wallet.
