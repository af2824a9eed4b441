/**
 * `mintNFT`: the recipe that turns a fresh mint key, a creator (payer and
 * authority), a recipient and the metadata record into one signed transaction
 * of six instructions. The answers of the network queries (the rent-exempt
 * minimum and the recent blockhash) are the fields of a `Connection` record,
 * and the library calls the recipe relies on are the fields of a `Library`
 * record: the model fixes only the arguments it passes.
 */
module MintNft {
  import opened Wrappers
  import opened Web3
  import Utils

  /** The metadata program id of index.ts: the same base58 literal as the builders' program id. */
  const METAPLEX_PROGRAM_ID: Pubkey := Utils.TOKEN_METADATA_PROGRAM_ID

  /** One creator of the metadata record: its address as base58 text, the verified flag and its share. */
  datatype Creator = Creator(address: string, verified: nat, share: nat)

  /** The metadata record handed to `mintNFT`. */
  datatype Data = Data(
    name: string,
    symbol: string,
    uri: string,
    sellerFeeBasisPoints: nat,
    creators: Option<seq<Creator>>)

  /** The two argument records the serializer encodes for the metadata program. */
  datatype SchemaArgs =
    | CreateMetadataArgs(data: Data, isMutable: bool)
    | CreateMasterEditionArgs(maxSupply: Option<nat>)

  /** Arguments of `SystemProgram.createAccount`. */
  datatype CreateAccountParams = CreateAccountParams(
    fromPubkey: Pubkey, newAccountPubkey: Pubkey, lamports: nat, space: nat, programId: Pubkey)

  /** Arguments of `Token.createInitMintInstruction`; `None` is a null freeze authority. */
  datatype InitMintParams = InitMintParams(
    programId: Pubkey, mint: Pubkey, decimals: nat, mintAuthority: Pubkey, freezeAuthority: Option<Pubkey>)

  /** Arguments of `Token.getAssociatedTokenAddress`. */
  datatype AssociatedAddressQuery = AssociatedAddressQuery(
    associatedProgramId: Pubkey, programId: Pubkey, mint: Pubkey, owner: Pubkey)

  /** Arguments of `Token.createAssociatedTokenAccountInstruction`. */
  datatype CreateAssociatedAccountParams = CreateAssociatedAccountParams(
    associatedProgramId: Pubkey, programId: Pubkey, mint: Pubkey,
    associatedAccount: Pubkey, owner: Pubkey, payer: Pubkey)

  /** Arguments of `Token.createMintToInstruction`. */
  datatype MintToParams = MintToParams(
    programId: Pubkey, mint: Pubkey, dest: Pubkey, authority: Pubkey,
    multiSigners: seq<Pubkey>, amount: nat)

  /**
   * The library functions the recipe calls. Address derivation can fail (the
   * library throws when no bump seed gives an off-curve address), and so can
   * borsh serialization (it throws when a value does not fit its schema field,
   * say a seller fee above the u16 range); these return an `Option`. The
   * instruction constructors are total.
   */
  datatype Library = Library(
    findProgramAddress: (seq<seq<uint8>>, Pubkey) -> Option<Pubkey>,
    getAssociatedTokenAddress: AssociatedAddressQuery -> Option<Pubkey>,
    createAccount: CreateAccountParams -> Instruction,
    createInitMint: InitMintParams -> Instruction,
    createAssociatedTokenAccount: CreateAssociatedAccountParams -> Instruction,
    createMintTo: MintToParams -> Instruction,
    serialize: SchemaArgs -> Option<seq<uint8>>)

  /**
   * The answers of the connection's two queries: the rent-exempt minimum
   * balance for an account of a given size, and the recent blockhash.
   */
  datatype Connection = Connection(
    minimumBalanceForRentExemption: nat -> nat,
    recentBlockhash: Blockhash)

  /** Which step failed; each one aborts the whole mint. */
  datatype MintError =
    | AssociatedAddressNotFound
    | MetadataAddressNotFound
    | MasterEditionAddressNotFound
    | MetadataEncodingFailed
    | MasterEditionEncodingFailed

  /** `Buffer.from(s)` for text that is plain ASCII: one byte per character, with the same code. */
  function Ascii(s: string): (b: seq<uint8>)
    requires forall i :: 0 <= i < |s| ==> s[i] as int < 128
    ensures |b| == |s| && forall i :: 0 <= i < |s| ==> b[i] as int == s[i] as int
  {
    if s == [] then [] else [s[0] as int as uint8] + Ascii(s[1..])
  }

  /** `Buffer.from("metadata")`, byte by byte; `SeedsAreAscii` shows it is `Ascii("metadata")`. */
  const METADATA_SEED: seq<uint8> := [0x6d, 0x65, 0x74, 0x61, 0x64, 0x61, 0x74, 0x61]
  /** `Buffer.from("edition")`, byte by byte; `SeedsAreAscii` shows it is `Ascii("edition")`. */
  const EDITION_SEED: seq<uint8> := [0x65, 0x64, 0x69, 0x74, 0x69, 0x6f, 0x6e]

  /** Seeds of the metadata account address. */
  function MetadataSeeds(mint: Pubkey): seq<seq<uint8>>
  {
    [METADATA_SEED, METAPLEX_PROGRAM_ID, mint]
  }

  /** Seeds of the master-edition account address. */
  function MasterEditionSeeds(mint: Pubkey): seq<seq<uint8>>
  {
    [METADATA_SEED, METAPLEX_PROGRAM_ID, mint, EDITION_SEED]
  }

  /** The query for the recipient's associated token account. */
  function AssociatedQuery(mint: Pubkey, user: Pubkey): AssociatedAddressQuery
  {
    AssociatedAddressQuery(ASSOCIATED_TOKEN_PROGRAM_ID, TOKEN_PROGRAM_ID, mint, user)
  }

  /** The three derived addresses the instructions refer to. */
  datatype Addresses = Addresses(associated: Pubkey, metadata: Pubkey, masterEdition: Pubkey)

  /**
   * The derivations in the order the recipe runs them: the associated account,
   * then the metadata account, then the master edition; the first that fails
   * decides the error.
   */
  function DeriveAddresses(lib: Library, mint: Pubkey, user: Pubkey): (r: Result<Addresses, MintError>)
    ensures r.Ok? <==>
      lib.getAssociatedTokenAddress(AssociatedQuery(mint, user)).Some? &&
      lib.findProgramAddress(MetadataSeeds(mint), METAPLEX_PROGRAM_ID).Some? &&
      lib.findProgramAddress(MasterEditionSeeds(mint), METAPLEX_PROGRAM_ID).Some?
    ensures r.Ok? ==>
      Some(r.value.associated) == lib.getAssociatedTokenAddress(AssociatedQuery(mint, user)) &&
      Some(r.value.metadata) == lib.findProgramAddress(MetadataSeeds(mint), METAPLEX_PROGRAM_ID) &&
      Some(r.value.masterEdition) == lib.findProgramAddress(MasterEditionSeeds(mint), METAPLEX_PROGRAM_ID)
  {
    match lib.getAssociatedTokenAddress(AssociatedQuery(mint, user))
    case None => Err(AssociatedAddressNotFound)
    case Some(assoc) =>
      match lib.findProgramAddress(MetadataSeeds(mint), METAPLEX_PROGRAM_ID)
      case None => Err(MetadataAddressNotFound)
      case Some(metadata) =>
        match lib.findProgramAddress(MasterEditionSeeds(mint), METAPLEX_PROGRAM_ID)
        case None => Err(MasterEditionAddressNotFound)
        case Some(edition) => Ok(Addresses(assoc, metadata, edition))
  }

  /** The keys and arguments passed to `createMetadataInstruction`. */
  datatype MetadataCall = MetadataCall(
    metadataAccount: Pubkey, mint: Pubkey, mintAuthority: Pubkey, payer: Pubkey,
    updateAuthority: Pubkey, args: SchemaArgs)

  /** The keys and arguments passed to `createMasterEditionInstruction`. */
  datatype MasterEditionCall = MasterEditionCall(
    metadataAccount: Pubkey, editionAccount: Pubkey, mint: Pubkey, mintAuthority: Pubkey,
    payer: Pubkey, updateAuthority: Pubkey, args: SchemaArgs)

  /** Everything the recipe passes to the six instruction constructors. */
  datatype MintPlan = MintPlan(
    createMintAccount: CreateAccountParams,
    initMint: InitMintParams,
    createAssociatedAccount: CreateAssociatedAccountParams,
    mintTo: MintToParams,
    createMetadata: MetadataCall,
    createMasterEdition: MasterEditionCall)

  /**
   * The argument wiring. Its contract is the consistency the six instructions
   * need among themselves: one mint key throughout, the creator as funder, mint
   * authority, payer and update authority everywhere, one indivisible unit
   * minted into the associated account created for the recipient, and both
   * metadata instructions addressing the same metadata account.
   */
  function Plan(
    mint: Pubkey, creator: Pubkey, user: Pubkey, data: Data, rentExemption: nat -> nat, addrs: Addresses
  ): (p: MintPlan)
    // the new account is the mint, funded by the creator, sized and owned for a mint,
    // with the rent-exempt minimum for exactly the size it allocates
    ensures p.createMintAccount.newAccountPubkey == mint && p.createMintAccount.fromPubkey == creator
    ensures p.createMintAccount.space == MINT_SIZE
    ensures p.createMintAccount.lamports == rentExemption(p.createMintAccount.space)
    ensures p.createMintAccount.programId == TOKEN_PROGRAM_ID == p.initMint.programId == p.mintTo.programId
    // the mint: no decimals, the creator as mint authority, no freeze authority
    ensures p.initMint.mint == mint && p.initMint.decimals == 0
    ensures p.initMint.mintAuthority == creator && p.initMint.freezeAuthority == None
    // the recipient's account is the derived associated account, paid for by the creator
    ensures p.createAssociatedAccount.mint == mint && p.createAssociatedAccount.owner == user
    ensures p.createAssociatedAccount.associatedAccount == addrs.associated
    ensures p.createAssociatedAccount.payer == creator
    ensures p.createAssociatedAccount.associatedProgramId == ASSOCIATED_TOKEN_PROGRAM_ID
    ensures p.createAssociatedAccount.programId == TOKEN_PROGRAM_ID
    // exactly one unit goes to that account, under the mint authority, with no multisig
    ensures p.mintTo.mint == mint && p.mintTo.dest == p.createAssociatedAccount.associatedAccount
    ensures p.mintTo.authority == p.initMint.mintAuthority && p.mintTo.multiSigners == []
    ensures p.mintTo.amount == 1
    // the metadata instructions: the creator in every role, the derived accounts
    ensures p.createMetadata.mint == p.createMasterEdition.mint == mint
    ensures p.createMetadata.mintAuthority == p.createMetadata.payer == p.createMetadata.updateAuthority == creator
    ensures p.createMasterEdition.mintAuthority == p.createMasterEdition.payer ==
            p.createMasterEdition.updateAuthority == creator
    ensures p.createMetadata.metadataAccount == p.createMasterEdition.metadataAccount == addrs.metadata
    ensures p.createMasterEdition.editionAccount == addrs.masterEdition
    ensures p.createMetadata.args == CreateMetadataArgs(data, true)
    ensures p.createMasterEdition.args == CreateMasterEditionArgs(Some(0))
  {
    MintPlan(
      CreateAccountParams(creator, mint, rentExemption(MINT_SIZE), MINT_SIZE, TOKEN_PROGRAM_ID),
      InitMintParams(TOKEN_PROGRAM_ID, mint, 0, creator, None),
      CreateAssociatedAccountParams(
        ASSOCIATED_TOKEN_PROGRAM_ID, TOKEN_PROGRAM_ID, mint, addrs.associated, user, creator),
      MintToParams(TOKEN_PROGRAM_ID, mint, addrs.associated, creator, [], 1),
      MetadataCall(addrs.metadata, mint, creator, creator, creator, CreateMetadataArgs(data, true)),
      MasterEditionCall(
        addrs.metadata, addrs.masterEdition, mint, creator, creator, creator,
        CreateMasterEditionArgs(Some(0))))
  }

  /** The instruction data both metadata instructions carry, serialized. */
  datatype Encoded = Encoded(metadataData: seq<uint8>, masterEditionData: seq<uint8>)

  /**
   * The two serializations in the order the recipe runs them: the
   * create-metadata arguments, then the create-master-edition arguments; the
   * first that fails decides the error.
   */
  function Encode(lib: Library, p: MintPlan): (r: Result<Encoded, MintError>)
    ensures r.Ok? <==>
      lib.serialize(p.createMetadata.args).Some? && lib.serialize(p.createMasterEdition.args).Some?
    ensures r.Ok? ==>
      Some(r.value.metadataData) == lib.serialize(p.createMetadata.args) &&
      Some(r.value.masterEditionData) == lib.serialize(p.createMasterEdition.args)
    ensures r.Err? ==> r.error in {MetadataEncodingFailed, MasterEditionEncodingFailed}
  {
    match lib.serialize(p.createMetadata.args)
    case None => Err(MetadataEncodingFailed)
    case Some(metadataData) =>
      match lib.serialize(p.createMasterEdition.args)
      case None => Err(MasterEditionEncodingFailed)
      case Some(masterEditionData) => Ok(Encoded(metadataData, masterEditionData))
  }

  /** The create-metadata instruction a call describes, with its serialized arguments. */
  function MetadataInstruction(c: MetadataCall, data: seq<uint8>): Instruction
  {
    Utils.CreateMetadataInstruction(
      c.metadataAccount, c.mint, c.mintAuthority, c.payer, c.updateAuthority, data)
  }

  /** The create-master-edition instruction a call describes, with its serialized arguments. */
  function MasterEditionInstruction(c: MasterEditionCall, data: seq<uint8>): Instruction
  {
    Utils.CreateMasterEditionInstruction(
      c.metadataAccount, c.editionAccount, c.mint, c.mintAuthority, c.payer, c.updateAuthority, data)
  }

  /** The six instructions, in the order they are added to the transaction. */
  function Instructions(lib: Library, p: MintPlan, enc: Encoded): seq<Instruction>
  {
    [ lib.createAccount(p.createMintAccount),
      lib.createInitMint(p.initMint),
      lib.createAssociatedTokenAccount(p.createAssociatedAccount),
      lib.createMintTo(p.mintTo),
      MetadataInstruction(p.createMetadata, enc.metadataData),
      MasterEditionInstruction(p.createMasterEdition, enc.masterEditionData) ]
  }

  /**
   * The transaction `mintNFT` submits, as a value: the six instructions, the
   * recent blockhash, the creator as fee payer, signed by the mint and the
   * creator; or the derivation or serialization that failed.
   */
  function MintTransaction(
    lib: Library, conn: Connection, mint: Pubkey, creator: Pubkey, user: Pubkey, data: Data
  ): Result<TransactionRecord, MintError>
  {
    match DeriveAddresses(lib, mint, user)
    case Err(e) => Err(e)
    case Ok(addrs) =>
      var p := Plan(mint, creator, user, data, conn.minimumBalanceForRentExemption, addrs);
      match Encode(lib, p)
      case Err(e) => Err(e)
      case Ok(enc) =>
        Ok(TransactionRecord(
          Instructions(lib, p, enc), Some(conn.recentBlockhash), Some(creator), {mint, creator}))
  }

  /** `b` holds the ASCII codes of the characters of `s`, in order. */
  predicate Spells(b: seq<uint8>, s: string)
  {
    |b| == |s| && forall i :: 0 <= i < |s| ==> b[i] as int == s[i] as int
  }

  /** `Ascii` is the only encoding that spells `s`. */
  lemma SpellsIsAscii(b: seq<uint8>, s: string)
    requires forall i :: 0 <= i < |s| ==> s[i] as int < 128
    requires Spells(b, s)
    ensures b == Ascii(s)
  {
  }

  /** The two seed constants are the ASCII encodings of "metadata" and "edition". */
  lemma SeedsAreAscii()
    ensures METADATA_SEED == Ascii("metadata")
    ensures EDITION_SEED == Ascii("edition")
  {
    SpellsIsAscii(METADATA_SEED, "metadata");
    SpellsIsAscii(EDITION_SEED, "edition");
  }

  /**
   * Seed structure: the metadata seeds are "metadata", the metadata program id
   * and the mint; the master-edition seeds are those three followed by
   * "edition", so the first list is a strict prefix of the second.
   */
  lemma SeedStructure(mint: Pubkey)
    ensures |MetadataSeeds(mint)| == 3
    ensures Spells(MetadataSeeds(mint)[0], "metadata")
    ensures MetadataSeeds(mint)[1] == Utils.TOKEN_METADATA_PROGRAM_ID && MetadataSeeds(mint)[2] == mint
    ensures MasterEditionSeeds(mint) == MetadataSeeds(mint) + [MasterEditionSeeds(mint)[3]]
    ensures Spells(MasterEditionSeeds(mint)[3], "edition")
    ensures MetadataSeeds(mint) < MasterEditionSeeds(mint)
  {
  }

  /**
   * The seed lists identify their mint, and a metadata seed list is never a
   * master-edition seed list: no two of the derivations the pipeline asks for
   * (across any two mints) are the same question.
   */
  lemma SeedsIdentifyMint(m1: Pubkey, m2: Pubkey)
    ensures MetadataSeeds(m1) == MetadataSeeds(m2) <==> m1 == m2
    ensures MasterEditionSeeds(m1) == MasterEditionSeeds(m2) <==> m1 == m2
    ensures MetadataSeeds(m1) != MasterEditionSeeds(m2)
  {
    if MetadataSeeds(m1) == MetadataSeeds(m2) {
      assert MetadataSeeds(m1)[2] == m1;
    }
    if MasterEditionSeeds(m1) == MasterEditionSeeds(m2) {
      assert MasterEditionSeeds(m1)[2] == m1;
    }
  }


  /** The library derives exactly these three addresses for `mint` and `user`. */
  predicate Derives(lib: Library, mint: Pubkey, user: Pubkey, assoc: Pubkey, metadata: Pubkey, edition: Pubkey)
  {
    DeriveAddresses(lib, mint, user) == Ok(Addresses(assoc, metadata, edition))
  }

  /** The serializer accepts both argument records the recipe encodes. */
  predicate Encodes(lib: Library, data: Data)
  {
    lib.serialize(CreateMetadataArgs(data, true)).Some? && lib.serialize(CreateMasterEditionArgs(Some(0))).Some?
  }

  /**
   * The mint fails only when an address derivation or a serialization fails,
   * and then with the first step that failed, in the order the recipe runs
   * them: associated account, metadata, master edition, metadata arguments,
   * master-edition arguments.
   */
  lemma MintFailures(lib: Library, conn: Connection, mint: Pubkey, creator: Pubkey, user: Pubkey, data: Data)
    ensures var r := MintTransaction(lib, conn, mint, creator, user, data);
      var assoc := lib.getAssociatedTokenAddress(AssociatedQuery(mint, user));
      var metadata := lib.findProgramAddress(MetadataSeeds(mint), METAPLEX_PROGRAM_ID);
      var edition := lib.findProgramAddress(MasterEditionSeeds(mint), METAPLEX_PROGRAM_ID);
      var metadataArgs := lib.serialize(CreateMetadataArgs(data, true));
      var editionArgs := lib.serialize(CreateMasterEditionArgs(Some(0)));
      && (r.Err? <==>
            assoc.None? || metadata.None? || edition.None? || metadataArgs.None? || editionArgs.None?)
      && (r == Err(AssociatedAddressNotFound) <==> assoc.None?)
      && (r == Err(MetadataAddressNotFound) <==> assoc.Some? && metadata.None?)
      && (r == Err(MasterEditionAddressNotFound) <==> assoc.Some? && metadata.Some? && edition.None?)
      && (r == Err(MetadataEncodingFailed) <==>
            assoc.Some? && metadata.Some? && edition.Some? && metadataArgs.None?)
      && (r == Err(MasterEditionEncodingFailed) <==>
            assoc.Some? && metadata.Some? && edition.Some? && metadataArgs.Some? && editionArgs.None?)
  {
  }

  /**
   * The transaction, once the three addresses are derived and both argument
   * records serialized: six instructions in the order create mint account,
   * initialise mint, create associated account, mint to, create metadata,
   * create master edition, each with the arguments the recipe wires in; the
   * recent blockhash; the creator as fee payer; signed by the mint and the
   * creator.
   */
  lemma TransactionLayout(
    lib: Library, conn: Connection, mint: Pubkey, creator: Pubkey, user: Pubkey, data: Data,
    assoc: Pubkey, metadata: Pubkey, edition: Pubkey)
    requires Derives(lib, mint, user, assoc, metadata, edition)
    requires Encodes(lib, data)
    ensures var r := MintTransaction(lib, conn, mint, creator, user, data);
      && r.Ok?
      && r.value.instructions == [
           lib.createAccount(CreateAccountParams(
             creator, mint, conn.minimumBalanceForRentExemption(MINT_SIZE), MINT_SIZE, TOKEN_PROGRAM_ID)),
           lib.createInitMint(InitMintParams(TOKEN_PROGRAM_ID, mint, 0, creator, None)),
           lib.createAssociatedTokenAccount(CreateAssociatedAccountParams(
             ASSOCIATED_TOKEN_PROGRAM_ID, TOKEN_PROGRAM_ID, mint, assoc, user, creator)),
           lib.createMintTo(MintToParams(TOKEN_PROGRAM_ID, mint, assoc, creator, [], 1)),
           Utils.CreateMetadataInstruction(
             metadata, mint, creator, creator, creator, lib.serialize(CreateMetadataArgs(data, true)).value),
           Utils.CreateMasterEditionInstruction(
             metadata, edition, mint, creator, creator, creator,
             lib.serialize(CreateMasterEditionArgs(Some(0))).value)]
      && r.value.recentBlockhash == Some(conn.recentBlockhash)
      && r.value.feePayer == Some(creator)
      && r.value.signers == {mint, creator}
  {
  }

  /** The only key the two metadata-program instructions require a signature from is the creator. */
  lemma MetadataInstructionSigners(
    lib: Library, conn: Connection, mint: Pubkey, creator: Pubkey, user: Pubkey, data: Data,
    assoc: Pubkey, metadata: Pubkey, edition: Pubkey, tx: TransactionRecord)
    requires Derives(lib, mint, user, assoc, metadata, edition)
    requires MintTransaction(lib, conn, mint, creator, user, data) == Ok(tx)
    ensures |tx.instructions| == 6
    ensures FlaggedKeys(tx.instructions[4].keys, Signer) == {creator}
    ensures FlaggedKeys(tx.instructions[5].keys, Signer) == {creator}
  {
    MintFailures(lib, conn, mint, creator, user, data);
    TransactionLayout(lib, conn, mint, creator, user, data, assoc, metadata, edition);
    Utils.MetadataSigners(
      metadata, mint, creator, creator, creator, lib.serialize(CreateMetadataArgs(data, true)).value);
    Utils.MasterEditionSigners(
      metadata, edition, mint, creator, creator, creator, lib.serialize(CreateMasterEditionArgs(Some(0))).value);
  }

  /**
   * Every key the two metadata-program instructions require a signature from
   * is a signer of the transaction, and so is the fee payer.
   */
  lemma SignersCoverRequiredSignatures(
    lib: Library, conn: Connection, mint: Pubkey, creator: Pubkey, user: Pubkey, data: Data,
    assoc: Pubkey, metadata: Pubkey, edition: Pubkey, tx: TransactionRecord)
    requires Derives(lib, mint, user, assoc, metadata, edition)
    requires MintTransaction(lib, conn, mint, creator, user, data) == Ok(tx)
    ensures |tx.instructions| == 6
    ensures FlaggedKeys(tx.instructions[4].keys, Signer) + FlaggedKeys(tx.instructions[5].keys, Signer) <= tx.signers
    ensures tx.feePayer.Some? && tx.feePayer.value in tx.signers
  {
    MetadataInstructionSigners(lib, conn, mint, creator, user, data, assoc, metadata, edition, tx);
    MintFailures(lib, conn, mint, creator, user, data);
    TransactionLayout(lib, conn, mint, creator, user, data, assoc, metadata, edition);
  }

  /**
   * The transaction is signed by exactly the two keys the create-account
   * instruction needs: the account that funds the new mint account and the
   * new mint account itself.
   */
  lemma SignersAreCreateAccountParties(
    lib: Library, conn: Connection, mint: Pubkey, creator: Pubkey, user: Pubkey, data: Data,
    assoc: Pubkey, metadata: Pubkey, edition: Pubkey, tx: TransactionRecord)
    requires Derives(lib, mint, user, assoc, metadata, edition)
    requires MintTransaction(lib, conn, mint, creator, user, data) == Ok(tx)
    ensures var plan := Plan(
        mint, creator, user, data, conn.minimumBalanceForRentExemption, Addresses(assoc, metadata, edition));
      && tx.instructions[0] == lib.createAccount(plan.createMintAccount)
      && tx.signers == {plan.createMintAccount.fromPubkey, plan.createMintAccount.newAccountPubkey}
  {
    MintFailures(lib, conn, mint, creator, user, data);
    TransactionLayout(lib, conn, mint, creator, user, data, assoc, metadata, edition);
  }

  /**
   * The accounts the metadata-program instructions may change are the derived
   * metadata account, the derived master-edition account and the mint.
   */
  lemma WritableAccounts(
    lib: Library, conn: Connection, mint: Pubkey, creator: Pubkey, user: Pubkey, data: Data,
    assoc: Pubkey, metadata: Pubkey, edition: Pubkey, tx: TransactionRecord)
    requires Derives(lib, mint, user, assoc, metadata, edition)
    requires MintTransaction(lib, conn, mint, creator, user, data) == Ok(tx)
    ensures |tx.instructions| == 6
    ensures FlaggedKeys(tx.instructions[4].keys, Writable) == {metadata}
    ensures FlaggedKeys(tx.instructions[5].keys, Writable) == {edition, mint}
  {
    MintFailures(lib, conn, mint, creator, user, data);
    TransactionLayout(lib, conn, mint, creator, user, data, assoc, metadata, edition);
    Utils.MetadataWritables(
      metadata, mint, creator, creator, creator, lib.serialize(CreateMetadataArgs(data, true)).value);
    Utils.MasterEditionWritables(
      metadata, edition, mint, creator, creator, creator, lib.serialize(CreateMasterEditionArgs(Some(0))).value);
  }

  /**
   * `mintNFT` step by step: build the six instructions, add them to a new
   * transaction one after another, set the blockhash and the fee payer, sign.
   * The transaction it builds is the one `MintTransaction` describes.
   */
  method MintNFT(lib: Library, conn: Connection, mint: Pubkey, creator: Pubkey, user: Pubkey, data: Data)
    returns (r: Result<Transaction, MintError>)
    ensures match MintTransaction(lib, conn, mint, creator, user, data)
      case Err(e) => r == Err(e)
      case Ok(t) => r.Ok? && fresh(r.value) && r.value.Snapshot() == t
  {
    var mintRent := conn.minimumBalanceForRentExemption(MINT_SIZE);
    var createMintAccountIx :=
      lib.createAccount(CreateAccountParams(creator, mint, mintRent, MINT_SIZE, TOKEN_PROGRAM_ID));
    var initMintIx := lib.createInitMint(InitMintParams(TOKEN_PROGRAM_ID, mint, 0, creator, None));

    var assocResult := lib.getAssociatedTokenAddress(
      AssociatedAddressQuery(ASSOCIATED_TOKEN_PROGRAM_ID, TOKEN_PROGRAM_ID, mint, user));
    if assocResult.None? {
      return Err(AssociatedAddressNotFound);
    }
    var assoc := assocResult.value;
    var createAssocTokenAccountIx := lib.createAssociatedTokenAccount(
      CreateAssociatedAccountParams(ASSOCIATED_TOKEN_PROGRAM_ID, TOKEN_PROGRAM_ID, mint, assoc, user, creator));
    var mintToIx := lib.createMintTo(MintToParams(TOKEN_PROGRAM_ID, mint, assoc, creator, [], 1));

    var metadataSeeds := [METADATA_SEED, METAPLEX_PROGRAM_ID, mint];
    assert metadataSeeds == MetadataSeeds(mint);
    var metadataResult := lib.findProgramAddress(metadataSeeds, METAPLEX_PROGRAM_ID);
    if metadataResult.None? {
      return Err(MetadataAddressNotFound);
    }
    var metadataAccount := metadataResult.value;

    var masterEditionSeeds := [METADATA_SEED, METAPLEX_PROGRAM_ID, mint, EDITION_SEED];
    assert masterEditionSeeds == MasterEditionSeeds(mint);
    var editionResult := lib.findProgramAddress(masterEditionSeeds, METAPLEX_PROGRAM_ID);
    if editionResult.None? {
      return Err(MasterEditionAddressNotFound);
    }
    var masterEditionAccount := editionResult.value;

    var serialized := lib.serialize(CreateMetadataArgs(data, true));
    if serialized.None? {
      return Err(MetadataEncodingFailed);
    }
    var buffer := serialized.value;
    var createMetadataIx :=
      Utils.CreateMetadataInstruction(metadataAccount, mint, creator, creator, creator, buffer);

    serialized := lib.serialize(CreateMasterEditionArgs(Some(0)));
    if serialized.None? {
      return Err(MasterEditionEncodingFailed);
    }
    buffer := serialized.value;
    var createMasterEditionIx := Utils.CreateMasterEditionInstruction(
      metadataAccount, masterEditionAccount, mint, creator, creator, creator, buffer);
    TransactionLayout(lib, conn, mint, creator, user, data, assoc, metadataAccount, masterEditionAccount);

    var tx := new Transaction();
    tx.Add(createMintAccountIx);
    tx.Add(initMintIx);
    tx.Add(createAssocTokenAccountIx);
    tx.Add(mintToIx);
    tx.Add(createMetadataIx);
    tx.Add(createMasterEditionIx);

    tx.recentBlockhash := Some(conn.recentBlockhash);
    tx.feePayer := Some(creator);

    tx.Sign([mint, creator]);
    assert tx.signers == {mint, creator};
    assert tx.instructions == [createMintAccountIx, initMintIx, createAssocTokenAccountIx,
                               mintToIx, createMetadataIx, createMasterEditionIx];
    r := Ok(tx);
  }
}
