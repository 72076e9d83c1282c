/**
 * Bit-level vocabulary shared by the two drivers: the "overwrite under a
 * mask" that every `reg |= bits` / `reg &= ~bits` sequence amounts to.
 */
module RegisterBits {

  /** True when any bit of `mask` is set in `reg`. */
  predicate IsSet(reg: bv32, mask: bv32) {
    reg & mask != 0
  }

  /** The bits of `reg` selected by `mask` replaced by those of `value`. */
  function Overwrite(reg: bv32, mask: bv32, value: bv32): bv32 {
    (reg & !mask) | (value & mask)
  }

  /** `mask` when `on`, no bits otherwise. */
  function Flag(on: bool, mask: bv32): bv32 {
    if on then mask else 0
  }

  /** A flag has no bits outside its mask. */
  lemma FlagWithin(on: bool, m: bv32)
    ensures Flag(on, m) & !m == 0
  {
    if on {
    } else {
    }
  }

  /** An overwrite reads back, under its mask, the value written. */
  lemma OverwriteInside(reg: bv32, mask: bv32, value: bv32)
    ensures Overwrite(reg, mask, value) & mask == value & mask
  {
  }

  /** An overwrite under a mask within `outer` keeps every bit outside `outer`. */
  lemma OverwriteOutside(reg: bv32, mask: bv32, value: bv32, outer: bv32)
    requires mask & !outer == 0
    ensures Overwrite(reg, mask, value) & !outer == reg & !outer
  {
  }

  /** `*reg[i] |= mask`: a read-modify-write that sets the bits of `mask`. */
  method SetBits(reg: array<bv32>, i: nat, mask: bv32)
    requires i < reg.Length
    modifies reg
    ensures reg[i] == old(reg[i]) | mask
    ensures forall j :: 0 <= j < reg.Length && j != i ==> reg[j] == old(reg[j])
  {
    reg[i] := reg[i] | mask;
  }

  /** `*reg[i] &= ~mask`: a read-modify-write that clears the bits of `mask`. */
  method ClearBits(reg: array<bv32>, i: nat, mask: bv32)
    requires i < reg.Length
    modifies reg
    ensures reg[i] == old(reg[i]) & !mask
    ensures forall j :: 0 <= j < reg.Length && j != i ==> reg[j] == old(reg[j])
  {
    reg[i] := reg[i] & !mask;
  }
}
