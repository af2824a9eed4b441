/**
 * The pieces of the ledger client library (web3.js / spl-token) that the mint
 * pipeline builds on: public keys, account metas, instructions, the well-known
 * program ids, and the mutable transaction object that collects instructions.
 */
module Web3 {
  import opened Wrappers

  /** One byte. */
  newtype uint8 = x: int | 0 <= x < 256

  /** A public key is 32 bytes; `toBuffer()` gives exactly these bytes. */
  type Pubkey = b: seq<uint8> | |b| == 32 witness seq(32, _ => 0)

  /** A recent ledger checkpoint, as returned by the blockhash query (base58 text). */
  type Blockhash = string

  /** One entry of an instruction's ordered account list. */
  datatype AccountMeta = AccountMeta(pubkey: Pubkey, isSigner: bool, isWritable: bool)

  /** `TransactionInstruction`: the program to call, its ordered accounts and opaque argument bytes. */
  datatype Instruction = Instruction(programId: Pubkey, keys: seq<AccountMeta>, data: seq<uint8>)

  /** `SystemProgram.programId`, base58 11111111111111111111111111111111. */
  const SYSTEM_PROGRAM_ID: Pubkey :=
    [0, 0, 0, 0, 0, 0, 0, 0, 0, 0, 0, 0, 0, 0, 0, 0,
     0, 0, 0, 0, 0, 0, 0, 0, 0, 0, 0, 0, 0, 0, 0, 0]

  /** `SYSVAR_RENT_PUBKEY`, base58 SysvarRent111111111111111111111111111111111. */
  const SYSVAR_RENT_PUBKEY: Pubkey :=
    [0x06, 0xa7, 0xd5, 0x17, 0x19, 0x2c, 0x5c, 0x51, 0x21, 0x8c, 0xc9, 0x4c, 0x3d, 0x4a, 0xf1, 0x7f,
     0x58, 0xda, 0xee, 0x08, 0x9b, 0xa1, 0xfd, 0x44, 0xe3, 0xdb, 0xd9, 0x8a, 0x00, 0x00, 0x00, 0x00]

  /** `TOKEN_PROGRAM_ID`, base58 TokenkegQfeZyiNwAJbNbGKPFXCWuBvf9Ss623VQ5DA. */
  const TOKEN_PROGRAM_ID: Pubkey :=
    [0x06, 0xdd, 0xf6, 0xe1, 0xd7, 0x65, 0xa1, 0x93, 0xd9, 0xcb, 0xe1, 0x46, 0xce, 0xeb, 0x79, 0xac,
     0x1c, 0xb4, 0x85, 0xed, 0x5f, 0x5b, 0x37, 0x91, 0x3a, 0x8c, 0xf5, 0x85, 0x7e, 0xff, 0x00, 0xa9]

  /** `ASSOCIATED_TOKEN_PROGRAM_ID`, base58 ATokenGPvbdGVxr1b2hvZbsiqW5xWH25efTNsLJA8knL. */
  const ASSOCIATED_TOKEN_PROGRAM_ID: Pubkey :=
    [0x8c, 0x97, 0x25, 0x8f, 0x4e, 0x24, 0x89, 0xf1, 0xbb, 0x3d, 0x10, 0x29, 0x14, 0x8e, 0x0d, 0x83,
     0x0b, 0x5a, 0x13, 0x99, 0xda, 0xff, 0x10, 0x84, 0x04, 0x8e, 0x7b, 0xd8, 0xdb, 0xe9, 0xf8, 0x59]

  /** `MintLayout.span`: the size in bytes of a token mint account. */
  const MINT_SIZE: nat := 82

  /** The two flags an account meta carries. */
  datatype Flag = Signer | Writable

  predicate HasFlag(m: AccountMeta, f: Flag)
  {
    match f
    case Signer => m.isSigner
    case Writable => m.isWritable
  }

  /**
   * The keys that an account list marks with flag `f`. For `Signer` these are the
   * keys whose signatures the ledger demands before it runs the instruction; for
   * `Writable` the accounts the instruction may change.
   */
  function FlaggedKeys(keys: seq<AccountMeta>, f: Flag): set<Pubkey>
  {
    set i | 0 <= i < |keys| && HasFlag(keys[i], f) :: keys[i].pubkey
  }

  /** An immutable view of a transaction: what `Transaction` holds at one moment. */
  datatype TransactionRecord = TransactionRecord(
    instructions: seq<Instruction>,
    recentBlockhash: Option<Blockhash>,
    feePayer: Option<Pubkey>,
    signers: set<Pubkey>)

  /**
   * The library's `Transaction` object, which the mint pipeline fills in place:
   * `add` appends an instruction, the blockhash and fee payer are plain field
   * assignments, and `sign` records which keys signed.
   */
  class Transaction {
    var instructions: seq<Instruction>
    var recentBlockhash: Option<Blockhash>
    var feePayer: Option<Pubkey>
    var signers: set<Pubkey>

    function Snapshot(): TransactionRecord
      reads this
    {
      TransactionRecord(instructions, recentBlockhash, feePayer, signers)
    }

    /** `new Transaction()`: no instructions, no blockhash, no fee payer, unsigned. */
    constructor ()
      ensures instructions == [] && recentBlockhash == None && feePayer == None && signers == {}
    {
      instructions := [];
      recentBlockhash := None;
      feePayer := None;
      signers := {};
    }

    /** `add(ix)`: appends one instruction at the end; nothing else changes. */
    method Add(ix: Instruction)
      modifies this
      ensures instructions == old(instructions) + [ix]
      ensures recentBlockhash == old(recentBlockhash) && feePayer == old(feePayer) && signers == old(signers)
    {
      instructions := instructions + [ix];
    }

    /**
     * `sign(...keypairs)`: the transaction is signed by exactly the given keys
     * (repeated keys sign once); the library refuses an empty list.
     */
    method Sign(keys: seq<Pubkey>)
      requires keys != []
      modifies this
      ensures signers == set k | k in keys
      ensures instructions == old(instructions)
      ensures recentBlockhash == old(recentBlockhash) && feePayer == old(feePayer)
    {
      signers := set k | k in keys;
    }
  }
}
