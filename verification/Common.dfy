/** Small shared vocabulary. */
module Common {
  datatype Option<+T> = None | Some(value: T)

  /** One more than the largest 64-bit number. */
  const WORD := 0x1_0000_0000_0000_0000

  type byte = b: int | 0 <= b < 256

  /** A pointer or another 64-bit word, and an int of the program. */
  type word = n: nat | n < WORD

  type cint = i: int | -0x8000_0000 <= i < 0x8000_0000

  /** Seals for object invariants. A predicate of the form "Opened(lock, key)
      implies P, for every key" is passed around as a whole; its parts come into
      play only in proofs that say `assert Opened(lock, 0)`. */
  datatype Lock = SymbolLock | LiveLock | ProfileLock | TreeLock | ExportLock | ModelLock

  predicate Opened(lock: Lock, key: nat) { true }
}
