# Minting one NFT: instruction assembly, modelled in Dafny

The program mints a single non-fungible token on Solana in one transaction of six
instructions:
1. Create the mint account.
2. Initialise the mint.
3. Create the recipient's associated token account.
4. Mint one unit into it.
5. Create the Token Metadata record.
6. Create the master-edition record.

The last two instructions are built by the program itself (`utils.ts`). The Token
Metadata program reads its accounts by position, so each of these two account lists
is a fixed table of `(pubkey, isSigner, isWritable)` entries. The rest is the recipe
in `mintNFT` (`index.ts`):
- the seeds of the two program-derived addresses;
- the arguments wired into each instruction constructor;
- the order of the six instructions;
- the fee payer and the signers.

The model has four files:
- `web3.dfy` (module `Web3`) covers the pieces of the ledger client library that the
  core relies on. Public keys are 32-byte sequences, and there are account metas,
  instructions and the well-known program ids (as decoded bytes). `FlaggedKeys`
  gives the set of keys an account list marks as signer or writable. The library's
  `Transaction` object becomes a class whose methods update it in place (`add`,
  `sign`).
- `utils.dfy` (module `Utils`) holds the two builders, `CreateMetadataInstruction`
  and `CreateMasterEditionInstruction`. Their contracts give the exact account
  tables. Lemmas give the signer and writable sets and show how the master-edition
  account order permutes the parameters.
- `mint.dfy` (module `MintNft`) holds the `mintNFT` recipe. The fresh mint key is an
  input. The answers of the two network queries (the rent-exempt minimum for an
  account size, the recent blockhash) are the fields of a `Connection` record. The
  library calls the recipe makes are fields of a `Library` record:
  - the two address derivations, which may fail;
  - the four token/system instruction constructors;
  - the borsh serializer, which may fail.

  `MintTransaction` is the transaction as a value, or the step that failed.
  `MintNFT` builds it step by step on a `Transaction` object and is proved to
  produce exactly that value. Lemmas state the seed structure, the instruction
  order, the argument wiring, the failure cases and the signer coverage.
- `wrappers.dfy` (module `Wrappers`) holds `Option` and `Result`.

The comment at index.ts:87 says the creator is both mint authority and freeze
authority, but the call at index.ts:88-94 passes `null` as the freeze authority. The
model follows the code: `Plan` ensures `freezeAuthority == None`. The associated
account instruction is built with both the associated-token program id and the
token program id (index.ts:106-113), and the model passes both.

## Model

| member | source | states |
|---|---|---|
| `Utils.CreateMetadataInstruction` | utils.ts:13-64 | program id is the Token Metadata program; data is passed through unchanged; exactly 7 accounts in the order metadata account, mint, mint authority, payer, update authority, System program, rent sysvar; an entry is a signer iff its index is 2 or 3, and writable iff its index is 0 |
| `Utils.CreateMasterEditionInstruction` | utils.ts:66-128 | program id is the Token Metadata program; data is unchanged; exactly 9 accounts in the order edition, mint, update authority, mint authority, payer, metadata account, token program, System program, rent sysvar; signer iff index is 2, 3 or 4; writable iff index is 0 or 1 |
| `Utils.MetadataSigners` | utils.ts:32-41 | the keys create-metadata needs signatures from are exactly {mintAuthority, payer} |
| `Utils.MetadataWritables` | utils.ts:21-57 | the only account create-metadata may change is the metadata account |
| `Utils.MasterEditionSigners` | utils.ts:86-100 | the keys create-master-edition needs signatures from are exactly {updateAuthority, mintAuthority, payer} |
| `Utils.MasterEditionWritables` | utils.ts:76-85 | the accounts create-master-edition may change are exactly {editionAccount, mint} |
| `Utils.MasterEditionParameterOrder` | utils.ts:66-105 | parameter p lands at account index [5,0,1,3,4,2][p], so the update authority (6th parameter) comes before the mint authority and the metadata account (1st parameter) is 6th; so whenever the metadata and edition accounts differ, the first account is not the metadata account that parameter order would put there |
| `MintNft.Ascii` | index.ts:127 | `Buffer.from` of ASCII text has one byte per character with the same code |
| `MintNft.SpellsIsAscii` | index.ts:127 | a byte string that spells ASCII text `s` character by character is `Ascii(s)`: the encoding is unique |
| `MintNft.SeedsAreAscii` | index.ts:127-141 | the seed constants are `Buffer.from("metadata")` and `Buffer.from("edition")` |
| `MintNft.SeedStructure` | index.ts:126-142 | metadata seeds are exactly ["metadata", metadata program id, mint]; master-edition seeds are those followed by "edition"; the first list is a strict prefix of the second |
| `MintNft.SeedsIdentifyMint` | index.ts:126-142 | equal seed lists mean equal mints (both kinds), and a metadata seed list is never a master-edition seed list |
| `MintNft.DeriveAddresses` | index.ts:97-146 | the derivation succeeds iff the associated address and both PDAs (metadata program id, the seeds above) are found; the addresses it returns are the ones the library derived |
| `MintNft.Encode` | index.ts:148-170 | serialization succeeds iff the serializer accepts both the create-metadata and the create-master-edition arguments; the bytes it returns are the serializer's; a failure is one of the two encoding errors |
| `MintNft.MintFailures` | index.ts:96-170 | the mint fails iff a derivation or a serialization fails, and the error names the first failing step in the order associated account, metadata address, master-edition address, metadata arguments, master-edition arguments |
| `MintNft.Plan` | index.ts:72-180 | one mint key in all six instructions; mint account of 82 bytes (the mint layout size) funded by the creator with the rent-exempt minimum for exactly the size it allocates, owned by the token program; 0 decimals, creator as mint authority, null freeze authority; associated account for the user paid by the creator, built with both the associated-token and the token program ids; exactly 1 unit minted into it under the mint authority, with no multisig; creator as mint authority, payer and update authority in both metadata instructions; both use the same derived metadata account; `isMutable` true; `maxSupply` Some(0) |
| `MintNft.TransactionLayout` | index.ts:182-194 | once the addresses are derived and both argument records serialized, the transaction holds exactly the six instructions (create mint account, init mint, create associated account, mint to, create metadata, create master edition) with their arguments (the rent-exempt minimum for 82 bytes, the serialized bytes), the recent blockhash, the creator as fee payer, and signers exactly {mint, creator} |
| `MintNft.MetadataInstructionSigners` | index.ts:156-180 | in the transaction, both metadata-program instructions need a signature from the creator only |
| `MintNft.SignersCoverRequiredSignatures` | index.ts:156-194 | every key the two metadata-program instructions require to sign is a transaction signer, and so is the fee payer |
| `MintNft.SignersAreCreateAccountParties` | index.ts:194 | the transaction is signed by exactly the funding account and the new account of its create-account instruction |
| `MintNft.WritableAccounts` | index.ts:156-180 | the accounts the metadata-program instructions may change are the derived metadata account, the derived edition account and the mint |
| `MintNft.MintNFT` | index.ts:64-194 | building the transaction step by step yields a fresh `Transaction` whose state equals `MintTransaction`, or the same derivation or serialization error |
| `Web3.Transaction.constructor` | index.ts:182 | a new transaction has no instructions, no blockhash, no fee payer and no signers |
| `Web3.Transaction.Add` | index.ts:183-188 | `add` appends the instruction at the end and changes nothing else |
| `Web3.Transaction.Sign` | index.ts:194 | after `sign`, the signers are exactly the given keys; instructions, blockhash and fee payer are unchanged |

## Left out

- `main()` (index.ts:33-62) is left out: the network connection, the airdrop, and the hard-coded recipient, URI and creator data. It is I/O and configuration. `mintNFT` is also not awaited at index.ts:61, so a failure there goes unobserved. The model does not represent that.
- The network queries are not modelled as calls. The rent-exempt minimum (index.ts:73-75) and the recent blockhash (index.ts:190) are the answers held in a `Connection` record. Submission (index.ts:196) and the log line (index.ts:198) are left out, as is a transport failure of any of them.
- Address derivation (`PublicKey.findProgramAddress`, `Token.getAssociatedTokenAddress`) is an uninterpreted function in the `Library` record. Its SHA-256 and off-curve search live in the library. The bump seed it returns is dropped, as the source drops it.
- Borsh serialization and the `schema` module are not part of this model. The instruction data is the opaque result of `Library.serialize`, which may fail. So the byte layout, the instruction tag byte, the presence-flag encoding of `maxSupply` and the rule that creator shares sum to 100 are not modelled.
- `MintNft.Encode`: which values the serializer rejects is the library's decision. The field widths of the schema (u16 seller fee, u8 `verified` and `share`) are not modelled, so `Data` holds unbounded naturals and the model does not say that a seller fee of 70000 fails.
- `SystemProgram.createAccount` and the three `Token` instruction constructors are black boxes. Only the arguments passed to them are modelled, not their account tables.
- `SignersCoverRequiredSignatures`: covers the signer flags of the two metadata-program instructions only, because the account tables of the library-built instructions are not modelled.
- Key generation is not modelled. The mint key is an input, and nothing assumes it differs from the creator key.
- `Web3.Transaction.Sign`: records which keys signed, as a set. It leaves out the signature bytes and the order of the signature list. Message compilation and `serialize` are left out too.
- Public keys are 32 bytes. The base58 program-id literals appear as their decoded bytes, so base58 parsing is not modelled.
