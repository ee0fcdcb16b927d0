/** Keyboard modifier flags: a set of modifier keys packed into the low four
    bits of one byte. */
module Modifiers {

  /** The four defined flags, each one bit of a `u8`. */
  const SHIFT: bv8 := 1
  const CTRL: bv8 := 1 << 1
  const ALT: bv8 := 1 << 2
  const LOGO: bv8 := 1 << 3

  /** The bits no defined flag uses. */
  const UNDEFINED_BITS: bv8 := 0xF0

  /** A modifier key, one per flag. */
  datatype Modifier = Shift | Ctrl | Alt | Logo

  predicate IsSingleBit(b: bv8) {
    b != 0 && b & (b - 1) == 0
  }

  /** The flag of a modifier key: a single bit, and a different bit for each key. */
  function Bit(m: Modifier): (b: bv8)
    ensures IsSingleBit(b)
    ensures b & UNDEFINED_BITS == 0
  {
    match m
    case Shift => SHIFT
    case Ctrl => CTRL
    case Alt => ALT
    case Logo => LOGO
  }

  /** The byte that holds a set of modifier keys: exactly the bits of its members. */
  function Encode(keys: set<Modifier>): (b: bv8)
    ensures forall m :: (b & Bit(m) != 0) <==> m in keys
    ensures b & UNDEFINED_BITS == 0
  {
    (if Shift in keys then SHIFT else 0) |
    (if Ctrl in keys then CTRL else 0) |
    (if Alt in keys then ALT else 0) |
    (if Logo in keys then LOGO else 0)
  }

  /** The modifier keys whose flag is set in a byte; other bits are ignored. */
  function Decode(b: bv8): (keys: set<Modifier>)
    ensures forall m :: m in keys <==> b & Bit(m) != 0
  {
    (if b & SHIFT != 0 then {Shift} else {}) +
    (if b & CTRL != 0 then {Ctrl} else {}) +
    (if b & ALT != 0 then {Alt} else {}) +
    (if b & LOGO != 0 then {Logo} else {})
  }

  /** The flags have the values 1, 2, 4 and 8, and each is a single bit. */
  lemma FlagValues()
    ensures SHIFT as int == 1 && CTRL as int == 2 && ALT as int == 4 && LOGO as int == 8
    ensures IsSingleBit(SHIFT) && IsSingleBit(CTRL) && IsSingleBit(ALT) && IsSingleBit(LOGO)
  {
  }

  /** Two different keys never share a bit. */
  lemma FlagsDisjoint(m: Modifier, n: Modifier)
    ensures m != n <==> Bit(m) & Bit(n) == 0
  {
  }

  /** All four flags together are 15: bits 4 to 7 carry no modifier. */
  lemma AllFlags()
    ensures SHIFT | CTRL | ALT | LOGO == 15
    ensures Encode({Shift, Ctrl, Alt, Logo}) == 15 == !UNDEFINED_BITS
  {
  }

  /** Decoding the byte of a set of keys gives back that set. */
  lemma DecodeEncode(keys: set<Modifier>)
    ensures Decode(Encode(keys)) == keys
  {
  }

  /** Encoding the keys of a byte gives back its defined bits. */
  lemma EncodeDecode(b: bv8)
    ensures Encode(Decode(b)) == b & !UNDEFINED_BITS
  {
  }

  /** Different sets of keys are held in different bytes. */
  lemma EncodeInjective(a: set<Modifier>, b: set<Modifier>)
    ensures Encode(a) == Encode(b) <==> a == b
  {
    if Encode(a) == Encode(b) {
      DecodeEncode(a);
      DecodeEncode(b);
    }
  }
}
