/**
 * The two Token Metadata program instructions the pipeline builds itself.
 * The on-chain program reads its accounts by position, so the order and the
 * signer/writable flags of each list are what these builders must get right.
 */
module Utils {
  import opened Web3

  /** `TOKEN_METADATA_PROGRAM_ID`, base58 metaqbxxUerdq28cj1RbAWkYQm3ybzjb6a8bt518x1s. */
  const TOKEN_METADATA_PROGRAM_ID: Pubkey :=
    [0x0b, 0x70, 0x65, 0xb1, 0xe3, 0xd1, 0x7c, 0x45, 0x38, 0x9d, 0x52, 0x7f, 0x6b, 0x04, 0xc3, 0xcd,
     0x58, 0xb8, 0x6c, 0x73, 0x1a, 0xa0, 0xfd, 0xb5, 0x49, 0xb6, 0xd1, 0xbc, 0x03, 0xf8, 0x29, 0x46]

  /**
   * Create-metadata instruction: seven accounts, the metadata account the only
   * writable one, the mint authority and the payer the only signers.
   */
  function CreateMetadataInstruction(
    metadataAccount: Pubkey,
    mint: Pubkey,
    mintAuthority: Pubkey,
    payer: Pubkey,
    updateAuthority: Pubkey,
    data: seq<uint8>
  ): (ix: Instruction)
    ensures ix.programId == TOKEN_METADATA_PROGRAM_ID && ix.data == data
    ensures |ix.keys| == 7
    ensures ix.keys[0].pubkey == metadataAccount && ix.keys[1].pubkey == mint
    ensures ix.keys[2].pubkey == mintAuthority && ix.keys[3].pubkey == payer
    ensures ix.keys[4].pubkey == updateAuthority
    ensures ix.keys[5].pubkey == SYSTEM_PROGRAM_ID && ix.keys[6].pubkey == SYSVAR_RENT_PUBKEY
    ensures forall i :: 0 <= i < |ix.keys| ==> (ix.keys[i].isSigner <==> i == 2 || i == 3)
    ensures forall i :: 0 <= i < |ix.keys| ==> (ix.keys[i].isWritable <==> i == 0)
  {
    var keys := [
      AccountMeta(metadataAccount, false, true),
      AccountMeta(mint, false, false),
      AccountMeta(mintAuthority, true, false),
      AccountMeta(payer, true, false),
      AccountMeta(updateAuthority, false, false),
      AccountMeta(SYSTEM_PROGRAM_ID, false, false),
      AccountMeta(SYSVAR_RENT_PUBKEY, false, false)
    ];
    Instruction(TOKEN_METADATA_PROGRAM_ID, keys, data)
  }

  /**
   * Create-master-edition instruction: nine accounts, the edition and the mint
   * writable, the update authority, the mint authority and the payer signing.
   * The account order is not the parameter order.
   */
  function CreateMasterEditionInstruction(
    metadataAccount: Pubkey,
    editionAccount: Pubkey,
    mint: Pubkey,
    mintAuthority: Pubkey,
    payer: Pubkey,
    updateAuthority: Pubkey,
    data: seq<uint8>
  ): (ix: Instruction)
    ensures ix.programId == TOKEN_METADATA_PROGRAM_ID && ix.data == data
    ensures |ix.keys| == 9
    ensures ix.keys[0].pubkey == editionAccount && ix.keys[1].pubkey == mint
    ensures ix.keys[2].pubkey == updateAuthority && ix.keys[3].pubkey == mintAuthority
    ensures ix.keys[4].pubkey == payer && ix.keys[5].pubkey == metadataAccount
    ensures ix.keys[6].pubkey == TOKEN_PROGRAM_ID
    ensures ix.keys[7].pubkey == SYSTEM_PROGRAM_ID && ix.keys[8].pubkey == SYSVAR_RENT_PUBKEY
    ensures forall i :: 0 <= i < |ix.keys| ==> (ix.keys[i].isSigner <==> 2 <= i <= 4)
    ensures forall i :: 0 <= i < |ix.keys| ==> (ix.keys[i].isWritable <==> i <= 1)
  {
    var keys := [
      AccountMeta(editionAccount, false, true),
      AccountMeta(mint, false, true),
      AccountMeta(updateAuthority, true, false),
      AccountMeta(mintAuthority, true, false),
      AccountMeta(payer, true, false),
      AccountMeta(metadataAccount, false, false),
      AccountMeta(TOKEN_PROGRAM_ID, false, false),
      AccountMeta(SYSTEM_PROGRAM_ID, false, false),
      AccountMeta(SYSVAR_RENT_PUBKEY, false, false)
    ];
    Instruction(TOKEN_METADATA_PROGRAM_ID, keys, data)
  }

  /** The keys the ledger must see signatures from for create-metadata: the mint authority and the payer. */
  lemma MetadataSigners(
    metadataAccount: Pubkey, mint: Pubkey, mintAuthority: Pubkey, payer: Pubkey,
    updateAuthority: Pubkey, data: seq<uint8>)
    ensures var ix := CreateMetadataInstruction(metadataAccount, mint, mintAuthority, payer, updateAuthority, data);
      FlaggedKeys(ix.keys, Signer) == {mintAuthority, payer}
  {
    var ix := CreateMetadataInstruction(metadataAccount, mint, mintAuthority, payer, updateAuthority, data);
    forall k | k in FlaggedKeys(ix.keys, Signer) ensures k == mintAuthority || k == payer {
      var i :| 0 <= i < |ix.keys| && HasFlag(ix.keys[i], Signer) && ix.keys[i].pubkey == k;
    }
    assert HasFlag(ix.keys[2], Signer) && HasFlag(ix.keys[3], Signer);
  }

  /** The only account create-metadata may change is the metadata account. */
  lemma MetadataWritables(
    metadataAccount: Pubkey, mint: Pubkey, mintAuthority: Pubkey, payer: Pubkey,
    updateAuthority: Pubkey, data: seq<uint8>)
    ensures var ix := CreateMetadataInstruction(metadataAccount, mint, mintAuthority, payer, updateAuthority, data);
      FlaggedKeys(ix.keys, Writable) == {metadataAccount}
  {
    var ix := CreateMetadataInstruction(metadataAccount, mint, mintAuthority, payer, updateAuthority, data);
    forall k | k in FlaggedKeys(ix.keys, Writable) ensures k == metadataAccount {
      var i :| 0 <= i < |ix.keys| && HasFlag(ix.keys[i], Writable) && ix.keys[i].pubkey == k;
    }
    assert HasFlag(ix.keys[0], Writable);
  }

  /** The keys the ledger must see signatures from for create-master-edition: both authorities and the payer. */
  lemma MasterEditionSigners(
    metadataAccount: Pubkey, editionAccount: Pubkey, mint: Pubkey, mintAuthority: Pubkey,
    payer: Pubkey, updateAuthority: Pubkey, data: seq<uint8>)
    ensures var ix := CreateMasterEditionInstruction(
        metadataAccount, editionAccount, mint, mintAuthority, payer, updateAuthority, data);
      FlaggedKeys(ix.keys, Signer) == {updateAuthority, mintAuthority, payer}
  {
    var ix := CreateMasterEditionInstruction(
      metadataAccount, editionAccount, mint, mintAuthority, payer, updateAuthority, data);
    forall k | k in FlaggedKeys(ix.keys, Signer) ensures k == updateAuthority || k == mintAuthority || k == payer {
      var i :| 0 <= i < |ix.keys| && HasFlag(ix.keys[i], Signer) && ix.keys[i].pubkey == k;
    }
    assert HasFlag(ix.keys[2], Signer) && HasFlag(ix.keys[3], Signer) && HasFlag(ix.keys[4], Signer);
  }

  /** The accounts create-master-edition may change: the edition account and the mint. */
  lemma MasterEditionWritables(
    metadataAccount: Pubkey, editionAccount: Pubkey, mint: Pubkey, mintAuthority: Pubkey,
    payer: Pubkey, updateAuthority: Pubkey, data: seq<uint8>)
    ensures var ix := CreateMasterEditionInstruction(
        metadataAccount, editionAccount, mint, mintAuthority, payer, updateAuthority, data);
      FlaggedKeys(ix.keys, Writable) == {editionAccount, mint}
  {
    var ix := CreateMasterEditionInstruction(
      metadataAccount, editionAccount, mint, mintAuthority, payer, updateAuthority, data);
    forall k | k in FlaggedKeys(ix.keys, Writable) ensures k == editionAccount || k == mint {
      var i :| 0 <= i < |ix.keys| && HasFlag(ix.keys[i], Writable) && ix.keys[i].pubkey == k;
    }
    assert HasFlag(ix.keys[0], Writable) && HasFlag(ix.keys[1], Writable);
  }

  /**
   * The master-edition account list permutes the key parameters: parameter p
   * (metadata, edition, mint, mint authority, payer, update authority) lands at
   * position EDITION_SLOTS[p]. So passing the accounts in parameter order would
   * put the metadata account where the program expects the edition account.
   */
  const EDITION_SLOTS: seq<nat> := [5, 0, 1, 3, 4, 2]

  lemma MasterEditionParameterOrder(
    metadataAccount: Pubkey, editionAccount: Pubkey, mint: Pubkey, mintAuthority: Pubkey,
    payer: Pubkey, updateAuthority: Pubkey, data: seq<uint8>)
    ensures var ix := CreateMasterEditionInstruction(
        metadataAccount, editionAccount, mint, mintAuthority, payer, updateAuthority, data);
      var params := [metadataAccount, editionAccount, mint, mintAuthority, payer, updateAuthority];
      forall p :: 0 <= p < 6 ==> ix.keys[EDITION_SLOTS[p]].pubkey == params[p]
    ensures var ix := CreateMasterEditionInstruction(
        metadataAccount, editionAccount, mint, mintAuthority, payer, updateAuthority, data);
      metadataAccount != editionAccount ==>
        ix.keys[0].pubkey != metadataAccount
  {
  }
}
