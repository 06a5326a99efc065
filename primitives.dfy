/** Fixed-width integers, account keys, and the Option/Result types shared by the model. */
module Primitives {

  newtype U8 = x: int | 0 <= x < 0x100
  newtype U16 = x: int | 0 <= x < 0x1_0000
  newtype U32 = x: int | 0 <= x < 0x1_0000_0000
  newtype U64 = x: int | 0 <= x < 0x1_0000_0000_0000_0000
  newtype U128 = x: int | 0 <= x < 0x1_0000_0000_0000_0000_0000_0000_0000_0000
  newtype I32 = x: int | -0x8000_0000 <= x < 0x8000_0000
  newtype I64 = x: int | -0x8000_0000_0000_0000 <= x < 0x8000_0000_0000_0000

  const U64_MODULUS: int := 0x1_0000_0000_0000_0000

  type Bytes = seq<U8>

  /** A 32-byte ledger address. */
  type Pubkey = k: Bytes | |k| == 32 witness seq(32, _ => 0)

  const ZERO_PUBKEY: Pubkey := seq(32, _ => 0)

  /** Rust `x as u64` for an `i64`: the same 64 bits read as unsigned (two's complement). */
  function I64AsU64(t: I64): (r: U64)
    ensures 0 <= t ==> r as int == t as int
    ensures (r as int - t as int) % U64_MODULUS == 0
  {
    if t < 0 then (t as int + U64_MODULUS) as U64 else t as U64
  }

  datatype Option<+T> = None | Some(value: T) {
    predicate IsFailure() { None? }

    function PropagateFailure<U>(): Option<U>
      requires None?
    {
      None
    }

    function Extract(): T
      requires Some?
    {
      value
    }

    /** `Option::map(|_| v)`: keeps presence, replaces the value. */
    function Replace<U>(v: U): Option<U> {
      match this
      case Some(_) => Some(v)
      case None => None
    }

    /** `Option::or(other)`: this when present, otherwise `other`. */
    function Or(other: Option<T>): Option<T> {
      if Some? then this else other
    }

    /** `Option::context(..)` / `ok_or(..)`: an absent value becomes the given error. */
    function ToResult(e: SwapError): Result<T> {
      match this
      case Some(v) => Ok(v)
      case None => Err(e)
    }
  }

  /** Why building a swap failed: an `Err` returned through `?`, or (IsPanic) an aborting assertion. */
  datatype SwapError =
    | AccountNotFound(key: Pubkey)           // an RPC read of an account that does not exist
    | AccountDecodeFailed(key: Pubkey)       // the discriminator-checked Anchor deserialisation failed
    | PoolLengthMismatch(actual: nat)        // `assert_eq!(data_bytes.len(), 904)` aborts
    | DataTooShort(key: Pubkey, actual: nat) // `&data_bytes[8..]` on fewer than 8 bytes aborts
    | LayoutDecodeFailed(key: Pubkey)        // raw-layout `try_from_bytes` failed
    | BinArrayLocateFailed                   // the bin-array locator returned an error
    | BinArraysFetchFailed                   // "Failed to fetch bin arrays"
    | ClockDecodeFailed                      // bincode could not decode the clock account
    | QuoteFailed                            // the quote engine returned an error
    | ArithmeticOverflow                     // a checked u64 operation overflowed
  {
    predicate IsPanic() {
      PoolLengthMismatch? || DataTooShort? || ArithmeticOverflow?
    }
  }

  datatype Result<+T> = Ok(value: T) | Err(error: SwapError) {
    predicate IsFailure() { Err? }

    function PropagateFailure<U>(): Result<U>
      requires Err?
    {
      Err(error)
    }

    function Extract(): T
      requires Ok?
    {
      value
    }

    /** `Result::ok()`: drops the error. */
    function ToOption(): Option<T> {
      match this
      case Ok(v) => Some(v)
      case Err(_) => None
    }
  }
}
