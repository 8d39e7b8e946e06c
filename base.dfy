/** Primitive types shared by the server-side modules: fixed-width unsigned
    integers, an optional value, durations, and the shared atomic counters
    (`Arc<AtomicU64>`, `Arc<AtomicU32>`) that partitions and segments update. */
module Base {

  type uint16 = x: int | 0 <= x < 0x1_0000
  type uint32 = x: int | 0 <= x < 0x1_0000_0000
  type uint64 = x: int | 0 <= x < 0x1_0000_0000_0000_0000
  type uint128 = x: int | 0 <= x < 0x1_0000_0000_0000_0000_0000_0000_0000_0000

  datatype Option<T> = None | Some(value: T)

  /** A duration in microseconds, the resolution of `IggyDuration`. */
  type Duration = uint64

  /** A 64-bit counter shared by reference between a partition, its segments
      and its parent topic and stream. */
  class AtomicU64 {
    var value: uint64

    constructor (initial: uint64)
      ensures value == initial
    {
      value := initial;
    }
  }

  /** A 32-bit counter shared by reference. */
  class AtomicU32 {
    var value: uint32

    constructor (initial: uint32)
      ensures value == initial
    {
      value := initial;
    }

    /** `fetch_add`: adds `delta`, wrapping around on overflow, and returns the
        value held before the addition. */
    method FetchAdd(delta: uint32) returns (previous: uint32)
      modifies this
      ensures previous == old(value)
      ensures value == (old(value) + delta) % 0x1_0000_0000
    {
      previous := value;
      value := (value + delta) % 0x1_0000_0000;
    }
  }
}
