/** Value types the mint command works with: account hashes, signers,
    the abstract contract calls a script is made of, and transactions. */
module NeoTypes {

  datatype Option<+T> = None | Some(value: T)

  type byte = bv8

  /** A 160-bit script hash identifying an account or a contract; equality is byte-exact. */
  type UInt160 = s: seq<byte> | |s| == 20 witness seq(20, _ => 0 as byte)

  /** The witness scopes a signer may grant. */
  datatype WitnessScope = NoScope | CalledByEntry | CustomContracts | CustomGroups | Global

  /** One account authorising a transaction, with the scope of its authorisation. */
  datatype Signer = Signer(account: UInt160, scopes: WitnessScope)

  /** An argument of a contract call; a hash argument may be null. */
  datatype ContractParameter = Hash160(hash: Option<UInt160>) | Integer(n: int)

  /** One contract method call emitted into a script. The byte encoding of
      the call is not modelled: a script is the ordered list of its calls. */
  datatype AppCall = AppCall(scriptHash: UInt160, operation: string, args: seq<ContractParameter>)

  type Script = seq<AppCall>

  datatype Witness = Witness(invocationScript: seq<byte>, verificationScript: seq<byte>)

  datatype TransactionAttribute = TransactionAttribute(kind: byte, data: seq<byte>)

  datatype Transaction = Transaction(
    signers: seq<Signer>,
    witnesses: seq<Witness>,
    attributes: seq<TransactionAttribute>,
    version: byte,
    script: Script)
}
