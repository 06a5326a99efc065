/**
 * The accounts of the swap instruction: the user's token accounts chosen by
 * direction, the bitmap-extension slot, and the trailing bin-array metas.
 */
module SwapAccounts {
  import opened Primitives
  import opened LbPairState

  /** `AccountMeta`: an account key with its signer and writable flags. */
  datatype AccountMeta = AccountMeta(pubkey: Pubkey, isSigner: bool, isWritable: bool)

  /** `AccountMeta::new(key, is_signer)`: always writable. */
  function NewWritable(pubkey: Pubkey, isSigner: bool): AccountMeta {
    AccountMeta(pubkey, isSigner, true)
  }

  /** The keys of a list of metas, in order. */
  function AccountKeys(metas: seq<AccountMeta>): (keys: seq<Pubkey>)
    ensures |keys| == |metas|
    ensures forall i :: 0 <= i < |metas| ==> keys[i] == metas[i].pubkey
  {
    if metas == [] then [] else [metas[0].pubkey] + AccountKeys(metas[1..])
  }

  /** `keys.into_iter().map(|key| AccountMeta::new(key, false))`. */
  function RemainingAccounts(keys: seq<Pubkey>): (metas: seq<AccountMeta>)
    ensures |metas| == |keys|
    ensures forall i :: 0 <= i < |keys| ==>
      metas[i].pubkey == keys[i] && metas[i].isWritable && !metas[i].isSigner
  {
    if keys == [] then [] else [NewWritable(keys[0], false)] + RemainingAccounts(keys[1..])
  }

  /** The remaining accounts carry exactly the located keys, in their order. */
  lemma {:induction false} RemainingAccountsKeys(keys: seq<Pubkey>)
    ensures AccountKeys(RemainingAccounts(keys)) == keys
  {
    if keys != [] {
      RemainingAccountsKeys(keys[1..]);
      assert RemainingAccounts(keys)[1..] == RemainingAccounts(keys[1..]);
    }
  }

  /** The mint of the token the user pays in: X when swapping for Y, else Y. */
  function InputMint(state: LbPair, swapForY: bool): Pubkey {
    if swapForY then state.tokenXMint else state.tokenYMint
  }

  /** The mint of the token the user receives. */
  function OutputMint(state: LbPair, swapForY: bool): Pubkey {
    if swapForY then state.tokenYMint else state.tokenXMint
  }

  /** `(user_token_in, user_token_out)`: the payer's associated token accounts for the two pool mints. */
  function UserTokenAccounts(payer: Pubkey, state: LbPair, swapForY: bool, ata: (Pubkey, Pubkey) -> Pubkey)
    : (r: (Pubkey, Pubkey))
    ensures r.0 == ata(payer, InputMint(state, swapForY))
    ensures r.1 == ata(payer, OutputMint(state, swapForY))
  {
    if swapForY then
      (ata(payer, state.tokenXMint), ata(payer, state.tokenYMint))
    else
      (ata(payer, state.tokenYMint), ata(payer, state.tokenXMint))
  }

  /** The input and output mints are the pool's two mints, one each. */
  lemma MintsAreThePoolMints(state: LbPair, swapForY: bool)
    ensures {InputMint(state, swapForY), OutputMint(state, swapForY)} == {state.tokenXMint, state.tokenYMint}
    ensures InputMint(state, swapForY) == OutputMint(state, !swapForY)
  {
  }

  /** Reversing the direction exactly exchanges the two token accounts. */
  lemma TokenAccountsMirror(payer: Pubkey, state: LbPair, swapForY: bool, ata: (Pubkey, Pubkey) -> Pubkey)
    ensures UserTokenAccounts(payer, state, !swapForY, ata).0 == UserTokenAccounts(payer, state, swapForY, ata).1
    ensures UserTokenAccounts(payer, state, !swapForY, ata).1 == UserTokenAccounts(payer, state, swapForY, ata).0
  {
  }

  /** With distinct mints and a derivation that separates mints, the two token accounts differ. */
  lemma TokenAccountsDistinct(payer: Pubkey, state: LbPair, swapForY: bool, ata: (Pubkey, Pubkey) -> Pubkey)
    requires state.tokenXMint != state.tokenYMint
    requires forall m1, m2 :: m1 != m2 ==> ata(payer, m1) != ata(payer, m2)
    ensures UserTokenAccounts(payer, state, swapForY, ata).0 != UserTokenAccounts(payer, state, swapForY, ata).1
  {
  }

  /**
   * `bitmap_extension.map(|_| key).or(Some(program_id))`: the extension key
   * when the extension is present, otherwise the program ID as the
   * "no extension" sentinel; never absent.
   */
  function BitmapExtensionSlot(extension: Option<BitmapExtension>, extensionKey: Pubkey, programId: Pubkey)
    : (slot: Option<Pubkey>)
    ensures slot.Some?
    ensures extension.Some? ==> slot.value == extensionKey
    ensures extension.None? ==> slot.value == programId
  {
    extension.Replace(extensionKey).Or(Some(programId))
  }

  /** When the derived key is not the sentinel, the slot tells exactly whether an extension was present. */
  lemma BitmapExtensionSlotIff(extension: Option<BitmapExtension>, extensionKey: Pubkey, programId: Pubkey)
    requires extensionKey != programId
    ensures BitmapExtensionSlot(extension, extensionKey, programId) == Some(extensionKey) <==> extension.Some?
    ensures BitmapExtensionSlot(extension, extensionKey, programId) == Some(programId) <==> extension.None?
  {
  }

  /** `accounts::Swap`: the fixed accounts of the swap instruction. */
  datatype Swap = Swap(
    lbPair: Pubkey,
    binArrayBitmapExtension: Option<Pubkey>,
    reserveX: Pubkey,
    reserveY: Pubkey,
    userTokenIn: Pubkey,
    userTokenOut: Pubkey,
    tokenXMint: Pubkey,
    tokenYMint: Pubkey,
    oracle: Pubkey,
    hostFeeIn: Option<Pubkey>,
    user: Pubkey,
    tokenXProgram: Pubkey,
    tokenYProgram: Pubkey,
    eventAuthority: Pubkey,
    program: Pubkey)
}
