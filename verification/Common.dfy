/** Vocabulary shared by all components: bytes, fixed-width bounds, optional values and error codes. */
module Common {

  newtype byte = x: int | 0 <= x < 256

  /** The number of values of the source's 32-bit counters. */
  const TWO_TO_THE_32: nat := 0x1_0000_0000

  /** The number of values of the source's `std::size_t`. */
  const TWO_TO_THE_64: nat := 0x1_0000_0000_0000_0000

  /** `MESSAGE_SIZE_UNLIMITED`: the largest 32-bit value. */
  const MESSAGE_SIZE_UNLIMITED: nat := 0xFFFF_FFFF

  type uint32 = n: nat | n < TWO_TO_THE_32
  type positive32 = n: nat | 0 < n < TWO_TO_THE_32 witness 1

  datatype Option<+T> = None | Some(value: T)

  /** The outcomes the handlers tell apart; every other code is `OtherError`. */
  datatype ErrorCode =
    | NoError
    | OperationAborted
    | BadDescriptor
    | NoDescriptors
    | BrokenPipe
    | NotConnected
    | NoPermission
    | AddressRequired
    | AlreadyOpen
    | EndOfFile
    | ConnectionReset
    | TimedOut
    | OtherError

  /** Small numbers do not wrap around in `std::size_t`. */
  lemma NoWrap(n: nat)
    requires n < TWO_TO_THE_64
    ensures n % TWO_TO_THE_64 == n
  {
  }
}
