/**
 * The pool record (`LbPair`) and the bitmap-extension record in two shapes:
 * the canonical one that every later stage reads, and the raw layout that
 * `try_from_bytes` reads positionally from the account bytes after the
 * 8-byte discriminator. The raw layout stores each reward rate in a form
 * that only `as_u128` turns into the canonical `u128`.
 *
 * The copy from raw to canonical is imperative, as in the source: a default
 * record is filled in by successive field assignments. Each copying method
 * is proved equal to a reference function, and the reference functions are
 * proved lossless.
 */
module LbPairState {
  import opened Primitives

  const NUM_REWARDS := 2

  /** The fixed-size byte arrays of the on-chain records (`[u8; N]`). */
  type Bytes1 = b: Bytes | |b| == 1 witness [0]
  type Bytes2 = b: Bytes | |b| == 2 witness [0, 0]
  type Bytes8 = b: Bytes | |b| == 8 witness seq(8, _ => 0)
  type Bytes24 = b: Bytes | |b| == 24 witness seq(24, _ => 0)
  type Bytes32 = b: Bytes | |b| == 32 witness seq(32, _ => 0)

  /** The pool's own bin-array bitmap, `[u64; 16]`. */
  type PoolBitmap = w: seq<U64> | |w| == 16 witness seq(16, _ => 0)
  /** One bin array's entry in the extension, `[u64; 8]`. */
  type ExtensionWord = w: seq<U64> | |w| == 8 witness seq(8, _ => 0)
  const ZERO_WORD: ExtensionWord := seq(8, _ => 0)
  /** One side of the extension, `[[u64; 8]; 12]`. */
  type ExtensionBitmap = w: seq<ExtensionWord> | |w| == 12 witness seq(12, _ => ZERO_WORD)

  /** Records that the pool carries and this core copies whole without reading them (32 bytes each on chain). */
  datatype StaticParameters = StaticParameters(bytes: Bytes32)
  datatype VariableParameters = VariableParameters(bytes: Bytes32)
  datatype ProtocolFee = ProtocolFee(amountX: U64, amountY: U64)

  /** The 16 bytes the raw layout holds in place of a reward rate. */
  type Bytes16 = b: Bytes | |b| == 16 witness seq(16, _ => 0)
  datatype RawRewardRate = RawRewardRate(bytes: Bytes16)

  datatype RewardInfo = RewardInfo(
    mint: Pubkey,
    vault: Pubkey,
    funder: Pubkey,
    rewardDuration: U64,
    rewardDurationEnd: U64,
    rewardRate: U128,
    lastUpdateTime: U64,
    cumulativeSecondsWithEmptyLiquidityReward: U64)

  datatype RawRewardInfo = RawRewardInfo(
    mint: Pubkey,
    vault: Pubkey,
    funder: Pubkey,
    rewardDuration: U64,
    rewardDurationEnd: U64,
    rewardRate: RawRewardRate,
    lastUpdateTime: U64,
    cumulativeSecondsWithEmptyLiquidityReward: U64)

  type RewardInfos = s: seq<RewardInfo> | |s| == NUM_REWARDS
    witness [DEFAULT_REWARD_INFO, DEFAULT_REWARD_INFO]
  type RawRewardInfos = s: seq<RawRewardInfo> | |s| == NUM_REWARDS
    witness [DEFAULT_RAW_REWARD_INFO, DEFAULT_RAW_REWARD_INFO]

  /** The canonical pool record. */
  datatype LbPair = LbPair(
    parameters: StaticParameters,
    vParameters: VariableParameters,
    bumpSeed: Bytes1,
    binStepSeed: Bytes2,
    pairType: U8,
    activeId: I32,
    binStep: U16,
    status: U8,
    requireBaseFactorSeed: U8,
    baseFactorSeed: Bytes2,
    activationType: U8,
    padding0: U8,
    tokenXMint: Pubkey,
    tokenYMint: Pubkey,
    reserveX: Pubkey,
    reserveY: Pubkey,
    protocolFee: ProtocolFee,
    padding1: Bytes32,
    rewardInfos: RewardInfos,
    oracle: Pubkey,
    binArrayBitmap: PoolBitmap,
    lastUpdatedAt: I64,
    padding2: Bytes32,
    preActivationSwapAddress: Pubkey,
    baseKey: Pubkey,
    activationPoint: U64,
    preActivationDuration: U64,
    padding3: Bytes8,
    padding4: U64,
    creator: Pubkey,
    reserved: Bytes24)

  /** The pool record as the raw layout (`hack::LbPair`) reads it. */
  datatype RawLbPair = RawLbPair(
    parameters: StaticParameters,
    vParameters: VariableParameters,
    bumpSeed: Bytes1,
    binStepSeed: Bytes2,
    pairType: U8,
    activeId: I32,
    binStep: U16,
    status: U8,
    requireBaseFactorSeed: U8,
    baseFactorSeed: Bytes2,
    activationType: U8,
    padding0: U8,
    tokenXMint: Pubkey,
    tokenYMint: Pubkey,
    reserveX: Pubkey,
    reserveY: Pubkey,
    protocolFee: ProtocolFee,
    padding1: Bytes32,
    rewardInfos: RawRewardInfos,
    oracle: Pubkey,
    binArrayBitmap: PoolBitmap,
    lastUpdatedAt: I64,
    padding2: Bytes32,
    preActivationSwapAddress: Pubkey,
    baseKey: Pubkey,
    activationPoint: U64,
    preActivationDuration: U64,
    padding3: Bytes8,
    padding4: U64,
    creator: Pubkey,
    reserved: Bytes24)

  /** The sparse index of far-out bin arrays, one bitmap per side of bin array 0. */
  datatype BitmapExtension = BitmapExtension(
    lbPair: Pubkey,
    positiveBinArrayBitmap: ExtensionBitmap,
    negativeBinArrayBitmap: ExtensionBitmap)

  datatype RawBitmapExtension = RawBitmapExtension(
    lbPair: Pubkey,
    positiveBinArrayBitmap: ExtensionBitmap,
    negativeBinArrayBitmap: ExtensionBitmap)

  function Zeros(n: nat): (z: Bytes)
    ensures |z| == n
  {
    seq(n, _ => 0)
  }

  /** `RewardInfo::default()`. */
  const DEFAULT_REWARD_INFO: RewardInfo :=
    RewardInfo(ZERO_PUBKEY, ZERO_PUBKEY, ZERO_PUBKEY, 0, 0, 0, 0, 0)

  const DEFAULT_RAW_REWARD_INFO: RawRewardInfo :=
    RawRewardInfo(ZERO_PUBKEY, ZERO_PUBKEY, ZERO_PUBKEY, 0, 0, RawRewardRate(Zeros(16)), 0, 0)

  /** `LbPair::default()`: every field zeroed. */
  const DEFAULT_LB_PAIR: LbPair :=
    LbPair(
      StaticParameters(Zeros(32)), VariableParameters(Zeros(32)),
      Zeros(1), Zeros(2), 0, 0, 0, 0, 0, Zeros(2), 0, 0,
      ZERO_PUBKEY, ZERO_PUBKEY, ZERO_PUBKEY, ZERO_PUBKEY,
      ProtocolFee(0, 0), Zeros(32),
      [DEFAULT_REWARD_INFO, DEFAULT_REWARD_INFO],
      ZERO_PUBKEY, seq(16, _ => 0), 0, Zeros(32),
      ZERO_PUBKEY, ZERO_PUBKEY, 0, 0, Zeros(8), 0, ZERO_PUBKEY, Zeros(24))

  /** `BinArrayBitmapExtension::default()`. */
  const DEFAULT_BITMAP_EXTENSION: BitmapExtension :=
    BitmapExtension(ZERO_PUBKEY, seq(12, _ => ZERO_WORD), seq(12, _ => ZERO_WORD))

  // ---------------------------------------------------------------------
  // Reference definitions of the normalisation

  /** A reward info with every field copied and the rate widened by `asU128`. */
  function NormalisedRewardInfo(raw: RawRewardInfo, asU128: RawRewardRate -> U128): RewardInfo {
    RewardInfo(
      raw.mint, raw.vault, raw.funder,
      raw.rewardDuration, raw.rewardDurationEnd,
      asU128(raw.rewardRate),
      raw.lastUpdateTime, raw.cumulativeSecondsWithEmptyLiquidityReward)
  }

  /** The canonical pool record: every raw field verbatim, reward infos normalised in order [0, 1]. */
  function Normalised(raw: RawLbPair, asU128: RawRewardRate -> U128): LbPair {
    LbPair(
      raw.parameters, raw.vParameters, raw.bumpSeed, raw.binStepSeed,
      raw.pairType, raw.activeId, raw.binStep, raw.status,
      raw.requireBaseFactorSeed, raw.baseFactorSeed, raw.activationType, raw.padding0,
      raw.tokenXMint, raw.tokenYMint, raw.reserveX, raw.reserveY,
      raw.protocolFee, raw.padding1,
      [NormalisedRewardInfo(raw.rewardInfos[0], asU128), NormalisedRewardInfo(raw.rewardInfos[1], asU128)],
      raw.oracle, raw.binArrayBitmap, raw.lastUpdatedAt, raw.padding2,
      raw.preActivationSwapAddress, raw.baseKey, raw.activationPoint, raw.preActivationDuration,
      raw.padding3, raw.padding4, raw.creator, raw.reserved)
  }

  /** The canonical extension record: the pool key and both bitmaps verbatim. */
  function NormalisedExtension(raw: RawBitmapExtension): BitmapExtension {
    BitmapExtension(raw.lbPair, raw.positiveBinArrayBitmap, raw.negativeBinArrayBitmap)
  }

  /** A widening is lossless when no two raw rates widen to the same `u128`. */
  ghost predicate Lossless(asU128: RawRewardRate -> U128) {
    forall a, b :: asU128(a) == asU128(b) ==> a == b
  }

  // ---------------------------------------------------------------------
  // The copy as the source performs it

  method CopyRewardInfo(raw: RawRewardInfo, asU128: RawRewardRate -> U128) returns (info: RewardInfo)
    ensures info == NormalisedRewardInfo(raw, asU128)
  {
    info := DEFAULT_REWARD_INFO;
    info := info.(mint := raw.mint);
    info := info.(vault := raw.vault);
    info := info.(funder := raw.funder);
    info := info.(rewardDuration := raw.rewardDuration);
    info := info.(rewardDurationEnd := raw.rewardDurationEnd);
    info := info.(rewardRate := asU128(raw.rewardRate));
    info := info.(lastUpdateTime := raw.lastUpdateTime);
    info := info.(cumulativeSecondsWithEmptyLiquidityReward := raw.cumulativeSecondsWithEmptyLiquidityReward);
  }

  method CopyLbPair(raw: RawLbPair, asU128: RawRewardRate -> U128) returns (state: LbPair)
    ensures state == Normalised(raw, asU128)
  {
    state := DEFAULT_LB_PAIR;
    var rawRewardInfo0 := raw.rewardInfos[0];
    var rawRewardInfo1 := raw.rewardInfos[1];
    var rewardInfo0 := CopyRewardInfo(rawRewardInfo0, asU128);
    var rewardInfo1 := CopyRewardInfo(rawRewardInfo1, asU128);

    state := state.(parameters := raw.parameters);
    state := state.(vParameters := raw.vParameters);
    state := state.(bumpSeed := raw.bumpSeed);
    state := state.(binStepSeed := raw.binStepSeed);
    state := state.(pairType := raw.pairType);
    state := state.(activeId := raw.activeId);
    state := state.(binStep := raw.binStep);
    state := state.(status := raw.status);
    state := state.(requireBaseFactorSeed := raw.requireBaseFactorSeed);
    state := state.(baseFactorSeed := raw.baseFactorSeed);
    state := state.(activationType := raw.activationType);
    state := state.(padding0 := raw.padding0);
    state := state.(tokenXMint := raw.tokenXMint);
    state := state.(tokenYMint := raw.tokenYMint);
    state := state.(reserveX := raw.reserveX);
    state := state.(reserveY := raw.reserveY);
    state := state.(protocolFee := raw.protocolFee);
    state := state.(padding1 := raw.padding1);
    state := state.(rewardInfos := [rewardInfo0, rewardInfo1]);
    state := state.(oracle := raw.oracle);
    state := state.(binArrayBitmap := raw.binArrayBitmap);
    state := state.(lastUpdatedAt := raw.lastUpdatedAt);
    state := state.(padding2 := raw.padding2);
    state := state.(preActivationSwapAddress := raw.preActivationSwapAddress);
    state := state.(baseKey := raw.baseKey);
    state := state.(activationPoint := raw.activationPoint);
    state := state.(preActivationDuration := raw.preActivationDuration);
    state := state.(padding3 := raw.padding3);
    state := state.(padding4 := raw.padding4);
    state := state.(creator := raw.creator);
    state := state.(reserved := raw.reserved);
  }

  method CopyBitmapExtension(raw: RawBitmapExtension) returns (extension: BitmapExtension)
    ensures extension == NormalisedExtension(raw)
  {
    extension := DEFAULT_BITMAP_EXTENSION;
    extension := extension.(lbPair := raw.lbPair);
    extension := extension.(positiveBinArrayBitmap := raw.positiveBinArrayBitmap);
    extension := extension.(negativeBinArrayBitmap := raw.negativeBinArrayBitmap);
  }

  // ---------------------------------------------------------------------
  // Properties of the normalisation

  /** Normalisation loses nothing: with a lossless widening, equal results come from equal raw records. */
  lemma NormalisationIsLossless(a: RawLbPair, b: RawLbPair, asU128: RawRewardRate -> U128)
    requires Lossless(asU128)
    requires Normalised(a, asU128) == Normalised(b, asU128)
    ensures a == b
  {
    forall i | 0 <= i < NUM_REWARDS
      ensures a.rewardInfos[i] == b.rewardInfos[i]
    {
      assert NormalisedRewardInfo(a.rewardInfos[i], asU128) == Normalised(a, asU128).rewardInfos[i];
      assert NormalisedRewardInfo(b.rewardInfos[i], asU128) == Normalised(b, asU128).rewardInfos[i];
      RewardInfoNormalisationIsLossless(a.rewardInfos[i], b.rewardInfos[i], asU128);
    }
    assert a.rewardInfos == b.rewardInfos;
  }

  lemma RewardInfoNormalisationIsLossless(a: RawRewardInfo, b: RawRewardInfo, asU128: RawRewardRate -> U128)
    requires Lossless(asU128)
    requires NormalisedRewardInfo(a, asU128) == NormalisedRewardInfo(b, asU128)
    ensures a == b
  {
    assert asU128(a.rewardRate) == asU128(b.rewardRate);
  }

  /**
   * The fields the swap reads (mints, reserves, oracle, active id, bin step,
   * bitmap, parameters), the creator, the reserved bytes and each reward's
   * mint, vault and funder are the raw ones; each reward rate is the widened
   * raw rate.
   */
  lemma NormalisationKeepsFields(raw: RawLbPair, asU128: RawRewardRate -> U128)
    ensures var s := Normalised(raw, asU128);
      && s.tokenXMint == raw.tokenXMint && s.tokenYMint == raw.tokenYMint
      && s.reserveX == raw.reserveX && s.reserveY == raw.reserveY
      && s.oracle == raw.oracle && s.activeId == raw.activeId && s.binStep == raw.binStep
      && s.binArrayBitmap == raw.binArrayBitmap && s.parameters == raw.parameters
      && s.creator == raw.creator && s.reserved == raw.reserved
      && forall i :: 0 <= i < NUM_REWARDS ==>
           && s.rewardInfos[i].mint == raw.rewardInfos[i].mint
           && s.rewardInfos[i].vault == raw.rewardInfos[i].vault
           && s.rewardInfos[i].funder == raw.rewardInfos[i].funder
           && s.rewardInfos[i].rewardRate == asU128(raw.rewardInfos[i].rewardRate)
  {
  }

  /** The extension copy loses nothing either. */
  lemma ExtensionNormalisationIsLossless(a: RawBitmapExtension, b: RawBitmapExtension)
    requires NormalisedExtension(a) == NormalisedExtension(b)
    ensures a == b
  {
  }
}
