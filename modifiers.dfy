/** The modifier bitmask table of the key-event API (`RimeModifier`).
    Every flag is one bit of a 32-bit word; `ModifierMask` is the set of
    bits that carry a modifier at all. */
module Modifiers {

  import opened Wrappers

  const ShiftMask: bv32 := 1 << 0
  const LockMask: bv32 := 1 << 1
  const ControlMask: bv32 := 1 << 2
  const Mod1Mask: bv32 := 1 << 3
  const AltMask: bv32 := Mod1Mask
  const Mod2Mask: bv32 := 1 << 4
  const Mod3Mask: bv32 := 1 << 5
  const Mod4Mask: bv32 := 1 << 6
  const Mod5Mask: bv32 := 1 << 7
  const Button1Mask: bv32 := 1 << 8
  const Button2Mask: bv32 := 1 << 9
  const Button3Mask: bv32 := 1 << 10
  const Button4Mask: bv32 := 1 << 11
  const Button5Mask: bv32 := 1 << 12
  // Bits 13 and 14 belong to XKB, bits 15 - 23 are unused, bit 29 is
  // used internally: none of them is a flag of this table.
  const HandledMask: bv32 := 1 << 24
  const ForwardMask: bv32 := 1 << 25
  const IgnoredMask: bv32 := ForwardMask
  const SuperMask: bv32 := 1 << 26
  const HyperMask: bv32 := 1 << 27
  const MetaMask: bv32 := 1 << 28
  const ReleaseMask: bv32 := 1 << 30

  const ModifierMask: bv32 := 0x5f001fff

  /** The distinct flags of the table (the aliases `AltMask` and
      `IgnoredMask` name `Mod1` and `Forward`). */
  datatype Modifier =
    | Shift | Lock | Control | Mod1 | Mod2 | Mod3 | Mod4 | Mod5
    | Button1 | Button2 | Button3 | Button4 | Button5
    | Handled | Forward | Super | Hyper | Meta | Release

  /** The single-bit word with bit `k` set. */
  function Bit(k: nat): bv32
    requires k < 32
  {
    1 << k
  }

  /** The table entry of a flag. */
  function Mask(m: Modifier): bv32
  {
    match m
    case Shift => ShiftMask
    case Lock => LockMask
    case Control => ControlMask
    case Mod1 => Mod1Mask
    case Mod2 => Mod2Mask
    case Mod3 => Mod3Mask
    case Mod4 => Mod4Mask
    case Mod5 => Mod5Mask
    case Button1 => Button1Mask
    case Button2 => Button2Mask
    case Button3 => Button3Mask
    case Button4 => Button4Mask
    case Button5 => Button5Mask
    case Handled => HandledMask
    case Forward => ForwardMask
    case Super => SuperMask
    case Hyper => HyperMask
    case Meta => MetaMask
    case Release => ReleaseMask
  }

  /** The bit a flag occupies: every table entry is a single bit. */
  function BitIndex(m: Modifier): (k: nat)
    ensures k < 32 && Mask(m) == Bit(k)
  {
    match m
    case Shift => 0
    case Lock => 1
    case Control => 2
    case Mod1 => 3
    case Mod2 => 4
    case Mod3 => 5
    case Mod4 => 6
    case Mod5 => 7
    case Button1 => 8
    case Button2 => 9
    case Button3 => 10
    case Button4 => 11
    case Button5 => 12
    case Handled => 24
    case Forward => 25
    case Super => 26
    case Hyper => 27
    case Meta => 28
    case Release => 30
  }

  /** The flag at bit `k`, if the table names one. */
  function FlagAt(k: nat): (r: Option<Modifier>)
    requires k < 32
    ensures r.Some? ==> BitIndex(r.value) == k
  {
    if k <= 12 then
      Some([Shift, Lock, Control, Mod1, Mod2, Mod3, Mod4, Mod5,
            Button1, Button2, Button3, Button4, Button5][k])
    else if 24 <= k <= 28 then
      Some([Handled, Forward, Super, Hyper, Meta][k - 24])
    else if k == 30 then Some(Release)
    else None
  }

  /** Every flag is found again at the bit it occupies, so no two flags
      share a bit. */
  lemma FlagAtBitIndex(m: Modifier)
    ensures FlagAt(BitIndex(m)) == Some(m)
  {
  }

  /** The flags are pairwise disjoint single bits. */
  lemma DistinctFlags(a: Modifier, b: Modifier)
    requires a != b
    ensures BitIndex(a) != BitIndex(b)
    ensures Mask(a) & Mask(b) == 0
  {
  }

  /** `AltMask` names `Mod1` and `IgnoredMask` names `Forward`. */
  lemma Aliases()
    ensures AltMask == Mod1Mask == Mask(Mod1)
    ensures IgnoredMask == ForwardMask == Mask(Forward)
  {
  }

  /** The combined literal is the union of every name in the table. */
  lemma ModifierMaskIsUnion()
    ensures ModifierMask ==
      ShiftMask | LockMask | ControlMask | Mod1Mask | AltMask | Mod2Mask | Mod3Mask
      | Mod4Mask | Mod5Mask | Button1Mask | Button2Mask | Button3Mask | Button4Mask
      | Button5Mask | HandledMask | ForwardMask | IgnoredMask | SuperMask | HyperMask
      | MetaMask | ReleaseMask
  {
  }

  /** Every flag lies inside the combined mask. */
  lemma WithinModifierMask(m: Modifier)
    ensures Mask(m) & ModifierMask == Mask(m)
    ensures AltMask & ModifierMask == AltMask && IgnoredMask & ModifierMask == IgnoredMask
  {
  }

  /** A bit is in the combined mask exactly when the table names a flag for it. */
  lemma ModifierMaskExact(k: nat)
    requires k < 32
    ensures Bit(k) & ModifierMask != 0 <==> FlagAt(k).Some?
    ensures Bit(k) & ModifierMask != 0 ==> Bit(k) & ModifierMask == Bit(k)
  {
  }

  /** The XKB bits 13 and 14, the unused bits 15 - 23, the internal bit 29
      and the top bit 31 are all outside the combined mask. */
  lemma ReservedBitsOutsideMask(k: nat)
    requires 13 <= k <= 23 || k == 29 || k == 31
    ensures Bit(k) & ModifierMask == 0
  {
  }
}
