/** Decoded transactions. Decoding itself is a parameter wherever it is needed. */
module Transactions {
  import opened Common

  type Pubkey = string

  datatype Header = Header(numSigned: nat, numReadonlySigned: nat, numReadonlyUnsigned: nat)

  /** Indices refer to the transaction's static account keys and may be out of range. */
  datatype Instruction = Instruction(programIdIndex: nat, accounts: seq<nat>, data: seq<bv8>)

  datatype Transaction = Transaction(keys: seq<Pubkey>, header: Header, instructions: seq<Instruction>)

  /** `slice::get`. */
  function Get<T>(s: seq<T>, i: nat): Option<T> {
    if i < |s| then Some(s[i]) else None
  }
}
