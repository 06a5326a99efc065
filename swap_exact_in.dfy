/**
 * The two entry points that build an exact-input swap against one pool:
 *  - `swap` reads the pool and its bitmap extension through the
 *    discriminator-checked Anchor path, treats a missing or undecodable
 *    extension as absent, and submits [compute-unit limit, swap];
 *  - `swap_exact_in_instructions` reads both records through the raw layout
 *    (exact pool length, discriminator skipped, field-by-field copy),
 *    requires the extension, and returns [swap] alone.
 * Everything after decoding (the bin arrays, the clock, the quote and the
 * swap instruction) is shared.
 */
module SwapExactIn {
  import opened Primitives
  import opened LbPairState
  import opened Ledger
  import opened Slippage
  import opened SwapAccounts

  /** Byte length of a pool account: the 8-byte discriminator and the 896-byte record. */
  const POOL_ACCOUNT_LEN := 904
  const DISCRIMINATOR_LEN := 8
  /** How many bin arrays the locator is asked for. */
  const BIN_ARRAYS_FOR_SWAP := 3
  const COMPUTE_UNIT_LIMIT: U32 := 1_400_000
  /** `b"__event_authority"`. */
  const EVENT_AUTHORITY_SEED: Bytes :=
    [95, 95, 101, 118, 101, 110, 116, 95, 97, 117, 116, 104, 111, 114, 105, 116, 121]

  /** `SwapExactInParameters`. */
  datatype SwapExactInParameters = SwapExactInParameters(lbPair: Pubkey, amountIn: U64, swapForY: bool)

  /** What the quote engine is given. */
  datatype QuoteRequest = QuoteRequest(
    lbPair: Pubkey,
    state: LbPair,
    amountIn: U64,
    swapForY: bool,
    binArrays: map<Pubkey, BinArray>,
    extension: Option<BitmapExtension>,
    currentTimestamp: U64,
    currentSlot: U64)

  /** The part of the quote this core reads. */
  datatype SwapExactInQuote = SwapExactInQuote(amountOut: U64)

  /**
   * The fixed addresses and the collaborators this core calls but does not
   * define; each is a parameter, so nothing is assumed about it.
   */
  datatype Collaborators = Collaborators(
    programId: Pubkey,                                        // lb_clmm::ID
    tokenProgramId: Pubkey,                                   // anchor_spl::token::ID
    clockSysvarId: Pubkey,                                    // Clock::id()
    associatedTokenAddress: (Pubkey, Pubkey) -> Pubkey,       // get_associated_token_address(owner, mint)
    findProgramAddress: (seq<Bytes>, Pubkey) -> Pubkey,       // Pubkey::find_program_address, key only
    deriveBitmapExtension: Pubkey -> Pubkey,                  // derive_bin_array_bitmap_extension, key only
    accountLbPair: Bytes -> Option<LbPair>,                   // Anchor deserialisation of LbPair
    accountBitmapExtension: Bytes -> Option<BitmapExtension>, // Anchor deserialisation of the extension
    rawLbPairFromBytes: Bytes -> Option<RawLbPair>,           // hack::LbPair::try_from_bytes
    rawBitmapExtensionFromBytes: Bytes -> Option<RawBitmapExtension>,
    binArrayFromBytes: Bytes -> Option<BinArray>,             // BinArray::try_deserialize
    clockFromBytes: Bytes -> Option<Clock>,                   // bincode::deserialize::<Clock>
    asU128: RawRewardRate -> U128,                            // as_u128 on the raw reward rate
    binArraysForSwap: (Pubkey, LbPair, Option<BitmapExtension>, bool, nat) -> Option<seq<Pubkey>>,
    quoteExactIn: QuoteRequest -> Option<SwapExactInQuote>)

  /** `instruction::Swap`: the swap instruction's arguments. */
  datatype SwapArgs = SwapArgs(amountIn: U64, minAmountOut: U64)

  datatype Instruction =
    | SetComputeUnitLimit(units: U32)
    | SwapInstruction(programId: Pubkey, accounts: Swap, remainingAccounts: seq<AccountMeta>, args: SwapArgs)

  /** The located bin arrays and the quote computed over them. */
  datatype Quoted = Quoted(binArrayKeys: seq<Pubkey>, quote: SwapExactInQuote)

  // ---------------------------------------------------------------------
  // The shared tail

  /** The quote request: the pool, the amount and direction, the fetched bin arrays and the clock, timestamp cast to `u64`. */
  function QuoteRequestFor(p: SwapExactInParameters, state: LbPair, extension: Option<BitmapExtension>,
                           binArrays: map<Pubkey, BinArray>, clock: Clock): QuoteRequest {
    QuoteRequest(p.lbPair, state, p.amountIn, p.swapForY, binArrays, extension,
                 I64AsU64(clock.unixTimestamp), clock.slot)
  }

  /**
   * Locate the bin arrays, fetch them all or fail, read the clock, and ask
   * for a quote with the timestamp reinterpreted as `u64`.
   */
  function QuoteSwap(p: SwapExactInParameters, state: LbPair, extension: Option<BitmapExtension>,
                     ledger: Snapshot, c: Collaborators): (r: Result<Quoted>)
    // success: the located keys, all fetched and decoded, and the engine's answer to the request built from them
    ensures r.Ok? ==> c.binArraysForSwap(p.lbPair, state, extension, p.swapForY, BIN_ARRAYS_FOR_SWAP)
                        == Some(r.value.binArrayKeys)
    ensures r.Ok? ==> forall k :: k in r.value.binArrayKeys ==>
      k in ledger.accounts && c.binArrayFromBytes(ledger.accounts[k].data).Some?
    ensures r.Ok? ==>
      var binArrays := FetchBinArrays(ledger, r.value.binArrayKeys, c.binArrayFromBytes);
      var clock := ReadClock(ledger, c.clockSysvarId, c.clockFromBytes);
      && binArrays.Ok? && clock.Ok?
      && c.quoteExactIn(QuoteRequestFor(p, state, extension, binArrays.value, clock.value)) == Some(r.value.quote)
    // the failures, in the order the steps run
    ensures c.binArraysForSwap(p.lbPair, state, extension, p.swapForY, BIN_ARRAYS_FOR_SWAP).None? ==>
      r == Err(BinArrayLocateFailed)
    ensures (exists keys, k :: c.binArraysForSwap(p.lbPair, state, extension, p.swapForY, BIN_ARRAYS_FOR_SWAP) == Some(keys)
               && k in keys && k !in ledger.accounts) ==> r == Err(BinArraysFetchFailed)
    ensures var located := c.binArraysForSwap(p.lbPair, state, extension, p.swapForY, BIN_ARRAYS_FOR_SWAP);
      located.Some? && FetchBinArrays(ledger, located.value, c.binArrayFromBytes).Err? ==> r == Err(BinArraysFetchFailed)
    ensures var located := c.binArraysForSwap(p.lbPair, state, extension, p.swapForY, BIN_ARRAYS_FOR_SWAP);
      var clock := ReadClock(ledger, c.clockSysvarId, c.clockFromBytes);
      located.Some? && FetchBinArrays(ledger, located.value, c.binArrayFromBytes).Ok? && clock.Err? ==>
        r == Err(clock.error)
    ensures var located := c.binArraysForSwap(p.lbPair, state, extension, p.swapForY, BIN_ARRAYS_FOR_SWAP);
      var clock := ReadClock(ledger, c.clockSysvarId, c.clockFromBytes);
      located.Some? && clock.Ok? ==>
        var binArrays := FetchBinArrays(ledger, located.value, c.binArrayFromBytes);
        binArrays.Ok? && c.quoteExactIn(QuoteRequestFor(p, state, extension, binArrays.value, clock.value)).None? ==>
          r == Err(QuoteFailed)
    // and when every step succeeds, so does the whole
    ensures var located := c.binArraysForSwap(p.lbPair, state, extension, p.swapForY, BIN_ARRAYS_FOR_SWAP);
      var clock := ReadClock(ledger, c.clockSysvarId, c.clockFromBytes);
      located.Some? && clock.Ok? ==>
        var binArrays := FetchBinArrays(ledger, located.value, c.binArrayFromBytes);
        binArrays.Ok? && c.quoteExactIn(QuoteRequestFor(p, state, extension, binArrays.value, clock.value)).Some? ==>
          r == Ok(Quoted(located.value, c.quoteExactIn(QuoteRequestFor(p, state, extension, binArrays.value, clock.value)).value))
  {
    var keys :- c.binArraysForSwap(p.lbPair, state, extension, p.swapForY, BIN_ARRAYS_FOR_SWAP).ToResult(BinArrayLocateFailed);
    var binArrays :- FetchBinArrays(ledger, keys, c.binArrayFromBytes);
    var clock :- ReadClock(ledger, c.clockSysvarId, c.clockFromBytes);
    var quote :- c.quoteExactIn(QuoteRequestFor(p, state, extension, binArrays, clock)).ToResult(QuoteFailed);
    Ok(Quoted(keys, quote))
  }

  /** `accounts::Swap`, the arguments and the remaining accounts, as one instruction of the pool program. */
  function BuildSwapInstruction(p: SwapExactInParameters, payer: Pubkey, state: LbPair,
                                extension: Option<BitmapExtension>, q: Quoted, c: Collaborators): (ix: Instruction)
    ensures ix.SwapInstruction? && ix.programId == c.programId
    // accounts taken verbatim from the parameters and the decoded pool
    ensures ix.accounts.lbPair == p.lbPair && ix.accounts.user == payer
    ensures ix.accounts.reserveX == state.reserveX && ix.accounts.reserveY == state.reserveY
    ensures ix.accounts.tokenXMint == state.tokenXMint && ix.accounts.tokenYMint == state.tokenYMint
    ensures ix.accounts.oracle == state.oracle
    // the user's token accounts follow the direction
    ensures ix.accounts.userTokenIn == c.associatedTokenAddress(payer, InputMint(state, p.swapForY))
    ensures ix.accounts.userTokenOut == c.associatedTokenAddress(payer, OutputMint(state, p.swapForY))
    // the extension slot: the derived key or the program-ID sentinel
    ensures ix.accounts.binArrayBitmapExtension ==
      Some(if extension.Some? then c.deriveBitmapExtension(p.lbPair) else c.programId)
    // fixed slots
    ensures ix.accounts.hostFeeIn == Some(c.programId) && ix.accounts.program == c.programId
    ensures ix.accounts.tokenXProgram == c.tokenProgramId && ix.accounts.tokenYProgram == c.tokenProgramId
    ensures ix.accounts.eventAuthority == c.findProgramAddress([EVENT_AUTHORITY_SEED], c.programId)
    // the trailing accounts are the located bin arrays, in order, writable and not signing
    ensures AccountKeys(ix.remainingAccounts) == q.binArrayKeys
    ensures forall m :: m in ix.remainingAccounts ==> m.isWritable && !m.isSigner
    // the amount in passes through; the minimum out is the quote less 100 basis points
    ensures ix.args.amountIn == p.amountIn
    ensures ix.args.minAmountOut == MinAmountOut(q.quote.amountOut)
    ensures ix.args.minAmountOut <= q.quote.amountOut
    ensures ix.args.minAmountOut as int * BASIS_POINT_MAX <= q.quote.amountOut as int * KEPT_BASIS_POINTS
  {
    var (userTokenIn, userTokenOut) := UserTokenAccounts(payer, state, p.swapForY, c.associatedTokenAddress);
    var extensionKey := c.deriveBitmapExtension(p.lbPair);
    var eventAuthority := c.findProgramAddress([EVENT_AUTHORITY_SEED], c.programId);
    var accounts := Swap(
      lbPair := p.lbPair,
      binArrayBitmapExtension := BitmapExtensionSlot(extension, extensionKey, c.programId),
      reserveX := state.reserveX,
      reserveY := state.reserveY,
      tokenXMint := state.tokenXMint,
      tokenYMint := state.tokenYMint,
      tokenXProgram := c.tokenProgramId,
      tokenYProgram := c.tokenProgramId,
      user := payer,
      userTokenIn := userTokenIn,
      userTokenOut := userTokenOut,
      oracle := state.oracle,
      hostFeeIn := Some(c.programId),
      eventAuthority := eventAuthority,
      program := c.programId);
    var remaining := RemainingAccounts(q.binArrayKeys);
    RemainingAccountsKeys(q.binArrayKeys);
    SwapInstruction(c.programId, accounts, remaining, SwapArgs(p.amountIn, MinAmountOut(q.quote.amountOut)))
  }

  // ---------------------------------------------------------------------
  // `swap`: the discriminator-checked path

  /** The instructions `swap` submits: the compute-unit limit first, then the swap. */
  function SwapTransaction(p: SwapExactInParameters, payer: Pubkey, ledger: Snapshot, c: Collaborators)
    : (r: Result<seq<Instruction>>)
    ensures r.Ok? ==> |r.value| == 2 && r.value[0] == SetComputeUnitLimit(COMPUTE_UNIT_LIMIT)
    ensures r.Ok? ==> r.value[1].SwapInstruction? && r.value[1].args.amountIn == p.amountIn
    ensures r.Ok? ==> LoadAccount(ledger, p.lbPair, c.accountLbPair).Ok?
    ensures LoadAccount(ledger, p.lbPair, c.accountLbPair).Err? ==>
      r == Err(LoadAccount(ledger, p.lbPair, c.accountLbPair).error)
    // a missing or undecodable extension is no error: the slot holds the sentinel
    ensures r.Ok? && LoadAccount(ledger, c.deriveBitmapExtension(p.lbPair), c.accountBitmapExtension).Err? ==>
      r.value[1].accounts.binArrayBitmapExtension == Some(c.programId)
    ensures r.Ok? && LoadAccount(ledger, c.deriveBitmapExtension(p.lbPair), c.accountBitmapExtension).Ok? ==>
      r.value[1].accounts.binArrayBitmapExtension == Some(c.deriveBitmapExtension(p.lbPair))
    // the swap is the instruction built from the loaded records and the quote over them
    ensures LoadAccount(ledger, p.lbPair, c.accountLbPair).Ok? ==>
      var state := LoadAccount(ledger, p.lbPair, c.accountLbPair).value;
      var extension := LoadAccount(ledger, c.deriveBitmapExtension(p.lbPair), c.accountBitmapExtension).ToOption();
      var q := QuoteSwap(p, state, extension, ledger, c);
      && (q.Err? ==> r == Err(q.error))
      && (q.Ok? ==> r.Ok? && r.value[1] == BuildSwapInstruction(p, payer, state, extension, q.value, c))
  {
    var state :- LoadAccount(ledger, p.lbPair, c.accountLbPair);
    var extensionKey := c.deriveBitmapExtension(p.lbPair);
    var extension := LoadAccount(ledger, extensionKey, c.accountBitmapExtension).ToOption();
    var q :- QuoteSwap(p, state, extension, ledger, c);
    Ok([SetComputeUnitLimit(COMPUTE_UNIT_LIMIT), BuildSwapInstruction(p, payer, state, extension, q, c)])
  }

  // ---------------------------------------------------------------------
  // `swap_exact_in_instructions`: the raw-layout path

  /**
   * The pool record from its account bytes: exactly 904 bytes or the
   * assertion aborts; the raw layout is read after the discriminator and
   * normalised.
   */
  function DecodeLbPairRawLayout(data: Bytes, key: Pubkey, c: Collaborators): (r: Result<LbPair>)
    ensures r.Ok? <==> |data| == POOL_ACCOUNT_LEN && c.rawLbPairFromBytes(data[DISCRIMINATOR_LEN..]).Some?
    ensures |data| != POOL_ACCOUNT_LEN ==> r == Err(PoolLengthMismatch(|data|)) && r.error.IsPanic()
    ensures r.Ok? ==> r.value == Normalised(c.rawLbPairFromBytes(data[DISCRIMINATOR_LEN..]).value, c.asU128)
    ensures |data| == POOL_ACCOUNT_LEN && c.rawLbPairFromBytes(data[DISCRIMINATOR_LEN..]).None? ==>
      r == Err(LayoutDecodeFailed(key))
  {
    if |data| != POOL_ACCOUNT_LEN then Err(PoolLengthMismatch(|data|))
    else
      var raw :- c.rawLbPairFromBytes(data[DISCRIMINATOR_LEN..]).ToResult(LayoutDecodeFailed(key));
      Ok(Normalised(raw, c.asU128))
  }

  /** The extension record from its account bytes: no length check, but slicing off the discriminator aborts on fewer than 8 bytes. */
  function DecodeExtensionRawLayout(data: Bytes, key: Pubkey, c: Collaborators): (r: Result<BitmapExtension>)
    ensures r.Ok? <==> DISCRIMINATOR_LEN <= |data| && c.rawBitmapExtensionFromBytes(data[DISCRIMINATOR_LEN..]).Some?
    ensures |data| < DISCRIMINATOR_LEN ==> r == Err(DataTooShort(key, |data|)) && r.error.IsPanic()
    ensures r.Ok? ==> r.value == NormalisedExtension(c.rawBitmapExtensionFromBytes(data[DISCRIMINATOR_LEN..]).value)
    ensures DISCRIMINATOR_LEN <= |data| && c.rawBitmapExtensionFromBytes(data[DISCRIMINATOR_LEN..]).None? ==>
      r == Err(LayoutDecodeFailed(key))
  {
    if |data| < DISCRIMINATOR_LEN then Err(DataTooShort(key, |data|))
    else
      var raw :- c.rawBitmapExtensionFromBytes(data[DISCRIMINATOR_LEN..]).ToResult(LayoutDecodeFailed(key));
      Ok(NormalisedExtension(raw))
  }

  /** `get_account_data` on the pool, then the raw-layout decode. */
  function PoolRawLayout(ledger: Snapshot, key: Pubkey, c: Collaborators): Result<LbPair> {
    var data :- GetAccountData(ledger, key);
    DecodeLbPairRawLayout(data, key, c)
  }

  /** `get_account_data` on the extension, then the raw-layout decode; a missing account is an error here. */
  function ExtensionRawLayout(ledger: Snapshot, key: Pubkey, c: Collaborators): Result<BitmapExtension> {
    var data :- GetAccountData(ledger, key);
    DecodeExtensionRawLayout(data, key, c)
  }

  /** Both records decode the same way on the discriminator-checked path and on the raw-layout path. */
  predicate LayoutsAgree(ledger: Snapshot, lbPair: Pubkey, c: Collaborators) {
    var extensionKey := c.deriveBitmapExtension(lbPair);
    && PoolRawLayout(ledger, lbPair, c).Ok?
    && LoadAccount(ledger, lbPair, c.accountLbPair) == PoolRawLayout(ledger, lbPair, c)
    && ExtensionRawLayout(ledger, extensionKey, c).Ok?
    && LoadAccount(ledger, extensionKey, c.accountBitmapExtension) == ExtensionRawLayout(ledger, extensionKey, c)
  }

  /** Prefix the compute-unit limit to a successful instruction list. */
  function WithComputeBudget(r: Result<seq<Instruction>>): Result<seq<Instruction>> {
    match r
    case Ok(ixs) => Ok([SetComputeUnitLimit(COMPUTE_UNIT_LIMIT)] + ixs)
    case Err(e) => Err(e)
  }

  /**
   * The instructions `swap_exact_in_instructions` returns: the pool and the
   * extension through the raw layout, both mandatory, then the shared tail;
   * the swap alone, with no compute-budget instruction.
   */
  function ExactInInstructions(p: SwapExactInParameters, payer: Pubkey, ledger: Snapshot, c: Collaborators)
    : (r: Result<seq<Instruction>>)
    ensures r.Ok? ==> |r.value| == 1 && r.value[0].SwapInstruction? && r.value[0].args.amountIn == p.amountIn
    // the extension is always present here, so the slot is always the derived key
    ensures r.Ok? ==> r.value[0].accounts.binArrayBitmapExtension == Some(c.deriveBitmapExtension(p.lbPair))
    // the pool must exist, be exactly 904 bytes and decode
    ensures p.lbPair !in ledger.accounts ==> r == Err(AccountNotFound(p.lbPair))
    ensures p.lbPair in ledger.accounts && |ledger.accounts[p.lbPair].data| != POOL_ACCOUNT_LEN ==>
      r == Err(PoolLengthMismatch(|ledger.accounts[p.lbPair].data|))
    ensures PoolRawLayout(ledger, p.lbPair, c).Err? ==> r == Err(PoolRawLayout(ledger, p.lbPair, c).error)
    // then the extension must exist and decode: its absence is an error, not a fallback
    ensures PoolRawLayout(ledger, p.lbPair, c).Ok? && c.deriveBitmapExtension(p.lbPair) !in ledger.accounts ==>
      r == Err(AccountNotFound(c.deriveBitmapExtension(p.lbPair)))
    ensures r.Ok? ==> ExtensionRawLayout(ledger, c.deriveBitmapExtension(p.lbPair), c).Ok?
    // a short extension (the slicing panic) or one whose layout does not decode fails with that error
    ensures PoolRawLayout(ledger, p.lbPair, c).Ok? && ExtensionRawLayout(ledger, c.deriveBitmapExtension(p.lbPair), c).Err? ==>
      r == Err(ExtensionRawLayout(ledger, c.deriveBitmapExtension(p.lbPair), c).error)
    // the swap is the instruction built from the copied records and the quote over them
    ensures PoolRawLayout(ledger, p.lbPair, c).Ok? && ExtensionRawLayout(ledger, c.deriveBitmapExtension(p.lbPair), c).Ok? ==>
      var state := PoolRawLayout(ledger, p.lbPair, c).value;
      var extension := Some(ExtensionRawLayout(ledger, c.deriveBitmapExtension(p.lbPair), c).value);
      var q := QuoteSwap(p, state, extension, ledger, c);
      && (q.Err? ==> r == Err(q.error))
      && (q.Ok? ==> r.Ok? && r.value[0] == BuildSwapInstruction(p, payer, state, extension, q.value, c))
  {
    var state :- PoolRawLayout(ledger, p.lbPair, c);
    var extension :- ExtensionRawLayout(ledger, c.deriveBitmapExtension(p.lbPair), c);
    var q :- QuoteSwap(p, state, Some(extension), ledger, c);
    Ok([BuildSwapInstruction(p, payer, state, Some(extension), q, c)])
  }

  /** With both decoding paths agreeing, `swap` submits the compute-unit limit and then the very same swap. */
  lemma SwapMatchesExactIn(p: SwapExactInParameters, payer: Pubkey, ledger: Snapshot, c: Collaborators)
    requires LayoutsAgree(ledger, p.lbPair, c)
    ensures SwapTransaction(p, payer, ledger, c) == WithComputeBudget(ExactInInstructions(p, payer, ledger, c))
  {
    var extensionKey := c.deriveBitmapExtension(p.lbPair);
    var state := PoolRawLayout(ledger, p.lbPair, c).value;
    var extension := ExtensionRawLayout(ledger, extensionKey, c).value;
    assert LoadAccount(ledger, p.lbPair, c.accountLbPair) == Ok(state);
    assert LoadAccount(ledger, extensionKey, c.accountBitmapExtension).ToOption() == Some(extension);
    var q := QuoteSwap(p, state, Some(extension), ledger, c);
    if q.Ok? {
      var ix := BuildSwapInstruction(p, payer, state, Some(extension), q.value, c);
      assert SwapTransaction(p, payer, ledger, c) == Ok([SetComputeUnitLimit(COMPUTE_UNIT_LIMIT), ix]);
      assert ExactInInstructions(p, payer, ledger, c) == Ok([ix]);
      assert [SetComputeUnitLimit(COMPUTE_UNIT_LIMIT)] + [ix] == [SetComputeUnitLimit(COMPUTE_UNIT_LIMIT), ix];
    } else {
      assert SwapTransaction(p, payer, ledger, c) == Err(q.error);
      assert ExactInInstructions(p, payer, ledger, c) == Err(q.error);
    }
  }

  /** `swap_exact_in_instructions`, with the raw-layout records copied field by field. */
  method SwapExactInInstructions(p: SwapExactInParameters, payer: Pubkey, ledger: Snapshot, c: Collaborators)
    returns (r: Result<seq<Instruction>>)
    ensures r == ExactInInstructions(p, payer, ledger, c)
  {
    var dataBytes :- GetAccountData(ledger, p.lbPair);
    if |dataBytes| != POOL_ACCOUNT_LEN {
      return Err(PoolLengthMismatch(|dataBytes|));
    }
    var rawLbPair :- c.rawLbPairFromBytes(dataBytes[DISCRIMINATOR_LEN..]).ToResult(LayoutDecodeFailed(p.lbPair));
    var state := CopyLbPair(rawLbPair, c.asU128);
    assert PoolRawLayout(ledger, p.lbPair, c) == Ok(state);

    var extensionKey := c.deriveBitmapExtension(p.lbPair);
    var extensionBytes :- GetAccountData(ledger, extensionKey);
    if |extensionBytes| < DISCRIMINATOR_LEN {
      return Err(DataTooShort(extensionKey, |extensionBytes|));
    }
    var rawExtension :- c.rawBitmapExtensionFromBytes(extensionBytes[DISCRIMINATOR_LEN..]).ToResult(LayoutDecodeFailed(extensionKey));
    var bitmapExtension := CopyBitmapExtension(rawExtension);
    assert ExtensionRawLayout(ledger, extensionKey, c) == Ok(bitmapExtension);
    var extension := Some(bitmapExtension);

    var q :- QuoteSwap(p, state, extension, ledger, c);
    r := Ok([BuildSwapInstruction(p, payer, state, extension, q, c)]);
  }
}
