# Exact-input swap instruction builder of the DLMM command-line client

This project models how the DLMM (liquidity-book AMM) command-line client
builds an exact-input swap against one pool. The source file has two entry points:

- `swap` loads the pool record (`LbPair`) through Anchor's
  discriminator-checked deserialisation. It loads the bin-array bitmap
  extension the same way and treats a missing or undecodable extension as
  absent. It then asks the locator for three bin arrays, fetches the keys
  the locator returns, reads the clock,
  asks for a quote and submits a compute-unit limit of 1,400,000 followed by
  the swap instruction.
- `swap_exact_in_instructions` does the same work through a "raw layout"
  path and returns only the swap instruction:
  - the pool account must be exactly 904 bytes;
  - the 8-byte discriminator is skipped;
  - the `hack::` copies of the pool and extension records are decoded;
  - each is copied field by field into the canonical record, with the two
    reward rates widened to `u128`;
  - the extension is mandatory on this path.

The modules follow the components of the code:

| module | file | what it holds |
|---|---|---|
| `Primitives` | primitives.dfy | Fixed-width integers, 32-byte keys, `Option`/`Result`, and error kinds. |
| `LbPairState` | lb_pair.dfy | The canonical and raw records. The imperative field-by-field copy is proved equal to a reference normalisation. |
| `Ledger` | ledger.dfy | The ledger as one snapshot of accounts, account loading, the all-or-nothing bin-array collection, and the clock. |
| `Slippage` | slippage.dfy | The 100-basis-point minimum-output bound, both as written and as intended. |
| `SwapAccounts` | swap_accounts.dfy | Token accounts chosen by direction, the extension slot and its sentinel, and the remaining-account metas. |
| `SwapExactIn` | swap_exact_in.dfy | The two entry points and the tail they share. |

External collaborators are fields of `SwapExactIn.Collaborators`. The
model's functions and methods assume nothing about them. They are:

- associated-token-address and program-address derivation;
- Anchor and bytemuck decoders, bincode, and `as_u128`;
- the bin-array locator;
- the quote engine.

Three lemmas take a property of a collaborator as a hypothesis:
- `LbPairState.NormalisationIsLossless` assumes the rate widening `as_u128` is injective (`Lossless`).
- `SwapAccounts.TokenAccountsDistinct` assumes the associated-token-address derivation keeps distinct mints apart.
- `SwapExactIn.SwapMatchesExactIn` assumes both decoding paths give the same pool and extension (`LayoutsAgree`).

## Model

| member | source | states |
|---|---|---|
| LbPairState.CopyRewardInfo | cli/src/instructions/swap_exact_in.rs:183-207 | The reward info built from the default by successive field assignments equals the raw info with every field kept and the rate widened by `as_u128`. |
| LbPairState.CopyLbPair | cli/src/instructions/swap_exact_in.rs:181-239 | The pool record built from the default by the 31 assignments equals the reference normalisation: every raw field verbatim, reward infos 0 and 1 normalised in order. |
| LbPairState.CopyBitmapExtension | cli/src/instructions/swap_exact_in.rs:282-285 | The extension built from the default equals the raw pool key and both bitmaps. |
| LbPairState.NormalisationIsLossless | cli/src/instructions/swap_exact_in.rs:181-239 | If the rate widening is injective, two raw pool records with the same normalisation are equal. The copy drops no field. |
| LbPairState.RewardInfoNormalisationIsLossless | cli/src/instructions/swap_exact_in.rs:189-207 | The same holds for one reward info. |
| LbPairState.NormalisationKeepsFields | cli/src/instructions/swap_exact_in.rs:209-239 | The mints, reserves, oracle, active id, bin step, bitmap, parameters, creator and reward mints, vaults and funders of the copy are the raw ones. The rates are the widened raw rates. |
| LbPairState.ExtensionNormalisationIsLossless | cli/src/instructions/swap_exact_in.rs:282-285 | Equal copied extensions come from equal raw extensions. |
| Ledger.GetAccountData | cli/src/instructions/swap_exact_in.rs:177 | Succeeds exactly when the account exists, with its bytes. Otherwise it fails with account-not-found for that key. |
| Ledger.GetMultipleAccounts | cli/src/instructions/swap_exact_in.rs:73-76 | Gives one entry per requested key, in order. An entry is present exactly when the account exists, and is that account. |
| Ledger.LoadAccount | cli/src/instructions/swap_exact_in.rs:44 | `program.account`: fails if the account is missing. Otherwise it fails if it does not deserialise. Otherwise it returns the decoded record. |
| Ledger.CollectBinArrays | cli/src/instructions/swap_exact_in.rs:77-86 | The zip-map-collect into `Option<HashMap>` is present exactly when every zipped account exists and deserialises. |
| Ledger.CollectedKeys | cli/src/instructions/swap_exact_in.rs:77-86 | A successful collection has exactly the zipped keys as its domain. |
| Ledger.CollectedValue | cli/src/instructions/swap_exact_in.rs:77-86 | A key with no later duplicate maps to the bin array decoded from its own account. A later insert wins. |
| Ledger.CollectFromSnapshot | cli/src/instructions/swap_exact_in.rs:73-86 | With the accounts fetched from one snapshot, every requested key is present and maps to the decode of its own account, duplicates included. |
| Ledger.FetchBinArrays | cli/src/instructions/swap_exact_in.rs:297-311 | Succeeds exactly when every requested bin array exists and decodes. Otherwise it fails with "Failed to fetch bin arrays". On success, the domain is the requested keys and each value is its decode. |
| Ledger.ReadClock | cli/src/instructions/swap_exact_in.rs:313-320 | Succeeds exactly when the clock account exists and bincode-decodes, with the decoded clock. A missing clock account fails with account-not-found, and a bad encoding fails as a clock decode error. |
| Primitives.I64AsU64 | cli/src/instructions/swap_exact_in.rs:329 | `unix_timestamp as u64` keeps non-negative values. It agrees with the signed value modulo 2^64, so negative timestamps wrap. |
| Slippage.MinAmountOutAsWritten | cli/src/instructions/swap_exact_in.rs:357 | `amount_out * 9900 / 10000` in `u64` succeeds exactly when the product is below 2^64. Otherwise it is an overflow. |
| Slippage.MinAmountOut | cli/src/instructions/swap_exact_in.rs:356-357 | The intended bound is the largest value whose ratio to the quote is at most 9900/10000, and is floor-exact in both directions. It never exceeds the quote and is strictly below every positive quote. |
| Slippage.MinAmountOutMonotone | cli/src/instructions/swap_exact_in.rs:357 | A larger quote never gives a smaller bound. |
| Slippage.MinAmountOutExample | cli/src/instructions/swap_exact_in.rs:132-133 | A quote of 1,000,000 gives 990,000, on both definitions. |
| Slippage.AsWrittenAgreesBelowOverflow | cli/src/instructions/swap_exact_in.rs:357 | Wherever the written product fits, the code gives the intended bound. |
| Slippage.AsWrittenOverflows | cli/src/instructions/swap_exact_in.rs:133 | 1,863,307,482,192,884 still fits, and 1,863,307,482,192,885 overflows. Its intended bound 1,844,674,407,370,956 fits in `u64`. |
| Slippage.MinAmountOutWrapping | cli/src/instructions/swap_exact_in.rs:357 | In a build without overflow checks the bound is always below 2^64 / 10000. Where the product fits, it is the intended bound. |
| Slippage.WrappingUndercutsBound | cli/src/instructions/swap_exact_in.rs:357 | Once the product overflows, the wrapped minimum is strictly below the intended 99% of the quote. |
| Slippage.WrappingExample | cli/src/instructions/swap_exact_in.rs:357 | A quote of 2,794,961,223,289,327 wraps to a minimum of 922,337,203,685,478, against an intended 2,767,011,611,056,433. |
| SwapAccounts.RemainingAccounts | cli/src/instructions/swap_exact_in.rs:364-367 | Gives one meta per located bin array, in order, each writable and not a signer. |
| SwapAccounts.RemainingAccountsKeys | cli/src/instructions/swap_exact_in.rs:140-143 | The remaining accounts carry exactly the located keys, in their order. |
| SwapAccounts.UserTokenAccounts | cli/src/instructions/swap_exact_in.rs:243-253 | The input account is the payer's associated account for the input mint: X when swapping for Y, else Y. The output account is the one for the other mint. |
| SwapAccounts.MintsAreThePoolMints | cli/src/instructions/swap_exact_in.rs:46-56 | The input and output mints are the pool's two mints. Reversing direction swaps them. |
| SwapAccounts.TokenAccountsMirror | cli/src/instructions/swap_exact_in.rs:46-56 | Reversing the direction exchanges the two token accounts exactly. |
| SwapAccounts.TokenAccountsDistinct | cli/src/instructions/swap_exact_in.rs:243-253 | With distinct mints and a derivation that separates mints, the in and out accounts differ. |
| SwapAccounts.BitmapExtensionSlot | cli/src/instructions/swap_exact_in.rs:114-116 | The slot is always present. It holds the extension key when an extension was loaded, otherwise the program ID as sentinel. |
| SwapAccounts.BitmapExtensionSlotIff | cli/src/instructions/swap_exact_in.rs:338-340 | When the derived key is not the program ID, the slot holds the key if and only if an extension is present, and the sentinel if and only if it is absent. |
| SwapExactIn.QuoteSwap | cli/src/instructions/swap_exact_in.rs:289-331 | On success the keys are what the locator returned for 3 bin arrays, and every one exists and decodes. The quote is the engine's answer to a request holding the pool, the amount and direction, the fetched bin arrays, the extension, the clock's slot and its timestamp cast to `u64`. Failures are reported in step order: a locator failure, then "Failed to fetch bin arrays" when any located account is missing or undecodable, then the clock error, then a quote failure. When every step succeeds, the result is the located keys with the engine's quote. |
| SwapExactIn.BuildSwapInstruction | cli/src/instructions/swap_exact_in.rs:333-367 | Describes every Swap account. The pool, payer, reserves, mints and oracle come from the pool. The token accounts follow the direction. The extension slot holds the key or the sentinel. Host fee and program are the program ID, both token programs are SPL Token, and the event authority is derived from `__event_authority`. Remaining accounts are the located keys. `amount_in` passes through, and `min_amount_out` is the intended 99% of the quoted `amount_out`, rounded down, so never above the quote. |
| SwapExactIn.SwapTransaction | cli/src/instructions/swap_exact_in.rs:33-161 | `swap` submits exactly [compute-unit limit 1,400,000, swap]. A pool that fails to load is an error. An extension that fails to load is not: the slot holds the program ID. A loaded extension puts the derived key in the slot. Once the pool loads, a failure of the shared tail is that failure. Otherwise the swap is the instruction built from the loaded pool, the optional extension and the quote over them. |
| SwapExactIn.DecodeLbPairRawLayout | cli/src/instructions/swap_exact_in.rs:177-179 | Succeeds exactly when the data is 904 bytes and the raw layout after the 8-byte discriminator decodes. Any other length trips the assertion, and a layout that does not decode is a layout error for the pool key. The raw record is then normalised. |
| SwapExactIn.DecodeExtensionRawLayout | cli/src/instructions/swap_exact_in.rs:277-285 | Succeeds exactly when there are at least 8 bytes and the raw layout after them decodes. Fewer than 8 bytes is a slicing panic, and a layout that does not decode is a layout error for the extension key. The raw record is then normalised. |
| SwapExactIn.ExactInInstructions | cli/src/instructions/swap_exact_in.rs:163-380 | Returns exactly one swap instruction, with `amount_in` passed through and the derived extension key always in the slot. A missing pool, a wrong pool length or a failed pool decode each give their own error. After the pool, a missing extension, an extension shorter than 8 bytes (the slicing panic) or an undecodable extension layout each give their own error. Once both records are copied, a failure of the shared tail is that failure. Otherwise the instruction is the one built from the copied pool, the copied extension and the quote over them. |
| SwapExactIn.SwapMatchesExactIn | cli/src/instructions/swap_exact_in.rs:145-153 | When both decoding paths give the same pool and extension, `swap` submits the compute-unit limit followed by exactly the instruction list of `swap_exact_in_instructions`. |
| SwapExactIn.SwapExactInInstructions | cli/src/instructions/swap_exact_in.rs:163-380 | The imperative entry point, with its early returns and field-by-field copies, computes exactly `ExactInInstructions`. |

## Left out

- RPC transport, `async`, retries and RPC error details. Every read sees one
  fixed snapshot of the ledger, and a failed read appears only as the
  account being absent. Consistency between reads is therefore assumed, not
  modelled.
- `get_bin_array_pubkeys_for_swap` and `quote_exact_in` are not part of this
  model. They are uninterpreted collaborators, and only the request passed
  to the quote engine and the use of its `amount_out` are modelled.
- Program-address and associated-token-address derivation are
  uninterpreted functions of their inputs. The bump seeds are dropped.
- Byte layouts are abstract decoders. Anchor `try_deserialize` (pool,
  extension and bin arrays, with its discriminator check) and bincode (the
  clock, which has no discriminator) receive the whole account data. Only
  the two `try_from_bytes` raw-layout decoders receive the data after the
  8-byte discriminator. The file defining `LbPair`, `RewardInfo` and the `hack::`
  records is not part of this model. Field types follow the on-chain record.
  Integer and key fields carry their widths. The fixed-size arrays have
  exact-length types: `[u8; 1]`, `[u8; 2]`, `[u8; 8]`, `[u8; 24]`, `[u8; 32]`,
  the pool bitmap `[u64; 16]` and the extension bitmaps `[[u64; 8]; 12]`.
  Together they make up the 896-byte pool record. The static and variable
  parameters are kept opaque as 32 bytes each; their inner fields are not
  modelled.
- Anchor's account-meta ordering for `accounts::Swap` and the
  `RequestBuilder` are summarised. A swap instruction is the Swap accounts
  record, the remaining metas and the arguments. The ordering of
  `to_account_metas` and the instruction data encoding are not modelled.
  The instruction's program ID comes from `program.request()`, that is, from
  the `Program` client the caller passes in. The model takes that client's
  program to be `lb_clmm::ID` (`Collaborators.programId`), the same ID the
  source writes into the Swap accounts.
- Sending the transaction, the spinner, the signature and the `println!`
  messages are I/O and are left out.
- Slippage.MinAmountOut: models the intended wide product. The code as
  written is modelled separately: `MinAmountOutAsWritten` for the
  overflow-checked build, where the overflow is an abort, and
  `MinAmountOutWrapping` for a build that wraps.
- SwapExactIn.BuildSwapInstruction: uses the corrected `MinAmountOut`, so it
  never fails with `ArithmeticOverflow`. For quotes from
  1,863,307,482,192,885 up, the code as written aborts in a checked build.
  In a wrapping build the minimum becomes `(amount_out * 9900 mod 2^64) / 10000`,
  which is at most 1,844,674,407,370,955. That is strictly below the intended
  99% of the quote (`Slippage.WrappingUndercutsBound`), and often far below it.
- SwapExactIn.SwapTransaction: never returns `ArithmeticOverflow`, because it
  builds the swap with the corrected bound; the overflow is not modelled at
  this entry point.
- SwapExactIn.ExactInInstructions: never returns `ArithmeticOverflow`, for
  the same reason.
- SwapExactIn.SwapExactInInstructions: never returns `ArithmeticOverflow`,
  for the same reason.
- The client has no configurable slippage: the bound is a fixed 100 basis
  points. Neither entry point probes for or creates the user's output token
  account. In `swap_exact_in_instructions` a missing extension account is an
  error (`get_account_data(..)?`), never the program-ID sentinel.
- Assertion failures and slice panics are errors, not process aborts:
  `PoolLengthMismatch`, `DataTooShort` and `ArithmeticOverflow` are marked by
  `SwapError.IsPanic`. Only `Slippage.MinAmountOutAsWritten` raises
  `ArithmeticOverflow`.

## Findings

| source | as written | input that shows it | evidently intended | confidence | as-written member | corrected member |
|---|---|---|---|---|---|---|
| cli/src/instructions/swap_exact_in.rs:133, cli/src/instructions/swap_exact_in.rs:357 | `quote.amount_out * 9900` is formed in `u64` before the division. It overflows (a panic with overflow checks; without them the wrapped product gives a minimum strictly below 99% of the quote) for any quote of at least 1,863,307,482,192,885. | `amount_out = 1_863_307_482_192_885` | 99% of the quote rounded down, 1,844,674,407,370,956, which fits in `u64`. | not executed | Slippage.MinAmountOutAsWritten, Slippage.AsWrittenOverflows, Slippage.MinAmountOutWrapping, Slippage.WrappingUndercutsBound | Slippage.MinAmountOut |
