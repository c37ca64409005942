/** The instruction word, its addressing fields, the instruction set and the
    classifier that maps a word to its instruction kind. */
module Decoder {
  import opened Words

  datatype Option<+T> = None | Some(value: T)

  /** A fetched instruction broken into its fields. Every field is a 16-bit
      value, as in the interpreter, but only `raw` may use all 16 bits. */
  datatype Instruction = Instruction(
    raw: u16,  // the whole word
    op: u16,   // highest 4 bits
    nnn: u16,  // lowest 12 bits (an address)
    n: u16,    // lowest 4 bits
    x: u16,    // low 4 bits of the high byte (a register selector)
    y: u16,    // high 4 bits of the low byte (a register selector)
    kk: u16    // lowest 8 bits (an immediate byte)
  )
  {
    /** Every field lies within its documented width. */
    predicate InRange()
    {
      op < 0x10 && nnn < 0x1000 && n < 0x10 && x < 0x10 && y < 0x10 && kk < 0x100
    }
  }

  /** The low twelve bits of a word are its second nibble times 0x100 plus
      its low byte, and the low byte is its third nibble times 0x10 plus the
      fourth. */
  lemma NibbleSplit(raw: u16)
    ensures raw % 0x1000 == (raw / 0x100) % 0x10 * 0x100 + raw % 0x100
    ensures raw % 0x100 == (raw / 0x10) % 0x10 * 0x10 + raw % 0x10
  {
    var q, r := raw / 0x100, raw % 0x100;
    var d := q % 0x10;
    assert q == 0x10 * (q / 0x10) + d;
    assert raw == 0x1000 * (q / 0x10) + (0x100 * d + r);
    var p, n := raw / 0x10, raw % 0x10;
    var e := p % 0x10;
    assert p == 0x10 * (p / 0x10) + e;
    assert p / 0x10 == q;
    assert raw == 0x100 * q + (0x10 * e + n);
  }

  /** The field extraction done when an instruction is fetched: for a 16-bit
      word, `(w & 0xf000) >> 12` is `w / 0x1000`, `w & 0xfff` is
      `w % 0x1000`, `(w & 0xf00) >> 8` is `(w / 0x100) % 0x10`, and so on. */
  function Split(raw: u16): (ins: Instruction)
    ensures ins.raw == raw && ins.InRange()
    ensures raw == ins.op * 0x1000 + ins.nnn
    ensures ins.kk == ins.y * 0x10 + ins.n
    ensures ins.nnn == ins.x * 0x100 + ins.kk
    ensures raw == ins.op * 0x1000 + ins.x * 0x100 + ins.y * 0x10 + ins.n
  {
    NibbleSplit(raw);
    Instruction(raw, raw / 0x1000, raw % 0x1000, raw % 0x10,
                (raw / 0x100) % 0x10, (raw / 0x10) % 0x10, raw % 0x100)
  }

  /** The word whose four nibbles are `op`, `x`, `y` and `n`, high to low. */
  function Join(op: nat, x: nat, y: nat, n: nat): (w: u16)
    requires op < 0x10 && x < 0x10 && y < 0x10 && n < 0x10
  {
    op * 0x1000 + x * 0x100 + y * 0x10 + n
  }

  /** Splitting a word recovers the nibbles it was built from: the four
      nibble fields determine the word, so the decomposition loses nothing. */
  lemma SplitJoin(op: nat, x: nat, y: nat, n: nat)
    requires op < 0x10 && x < 0x10 && y < 0x10 && n < 0x10
    ensures var ins := Split(Join(op, x, y, n));
      ins.op == op && ins.x == x && ins.y == y && ins.n == n
  {
    var w := Join(op, x, y, n);
    var ins := Split(w);
    assert w == ins.op * 0x1000 + ins.x * 0x100 + ins.y * 0x10 + ins.n;
    assert ins.op == op by {
      assert w / 0x1000 == op;
    }
    assert ins.x == x by {
      assert w / 0x100 == op * 0x10 + x;
    }
    assert ins.y == y by {
      assert w / 0x10 == op * 0x100 + x * 0x10 + y;
    }
  }

  /** Two words with the same fields are the same word. */
  lemma SplitInjective(a: u16, b: u16)
    requires Split(a).op == Split(b).op && Split(a).x == Split(b).x
    requires Split(a).y == Split(b).y && Split(a).n == Split(b).n
    ensures a == b
  {
  }

  /** The CHIP-8 instruction set, one variant per mnemonic. */
  datatype InstructionType =
    | Cls | Ret | Jmp | CallNnn | SeVxKk | SneVxKk | SeVxVy | LdVxKk | AddVxKk
    | LdVxVy | OrVxVy | AndVxVy | XorVxVy | AddVxVy | SubVxVy | ShrVxVy
    | SubnVxVy | ShlVxVy | SneVxVy | LdINnn | JmpV0Nnn | RndVxKk | DrwVxVyN
    | SkpVx | SkNpVx | LdVxDt | LdVxK | LdDtVx | LdStVx | AddIVx | LdFVx
    | LdBVx | LdIVx | LdVxI

  /** Which bits of a word identify an instruction kind: the whole word, the
      top nibble alone, the top nibble and the low nibble, or the top nibble
      and the low byte. */
  datatype Pattern =
    | Whole(word: u16)
    | Top(op: u16)
    | TopLowNibble(op: u16, n: u16)
    | TopLowByte(op: u16, kk: u16)

  /** The opcode table of the instruction set, written as one pattern per
      instruction kind (`00E0`, `1nnn`, `8xy4`, `Fx33`, ...). */
  function Opcode(t: InstructionType): Pattern
  {
    match t
    case Cls => Whole(0x00E0)
    case Ret => Whole(0x00EE)
    case Jmp => Top(0x1)
    case CallNnn => Top(0x2)
    case SeVxKk => Top(0x3)
    case SneVxKk => Top(0x4)
    case SeVxVy => Top(0x5)
    case LdVxKk => Top(0x6)
    case AddVxKk => Top(0x7)
    case LdVxVy => TopLowNibble(0x8, 0x0)
    case OrVxVy => TopLowNibble(0x8, 0x1)
    case AndVxVy => TopLowNibble(0x8, 0x2)
    case XorVxVy => TopLowNibble(0x8, 0x3)
    case AddVxVy => TopLowNibble(0x8, 0x4)
    case SubVxVy => TopLowNibble(0x8, 0x5)
    case ShrVxVy => TopLowNibble(0x8, 0x6)
    case SubnVxVy => TopLowNibble(0x8, 0x7)
    case ShlVxVy => TopLowNibble(0x8, 0xE)
    case SneVxVy => Top(0x9)
    case LdINnn => Top(0xA)
    case JmpV0Nnn => Top(0xB)
    case RndVxKk => Top(0xC)
    case DrwVxVyN => Top(0xD)
    case SkpVx => TopLowByte(0xE, 0x9E)
    case SkNpVx => TopLowByte(0xE, 0xA1)
    case LdVxDt => TopLowByte(0xF, 0x07)
    case LdVxK => TopLowByte(0xF, 0x0A)
    case LdDtVx => TopLowByte(0xF, 0x15)
    case LdStVx => TopLowByte(0xF, 0x18)
    case AddIVx => TopLowByte(0xF, 0x1E)
    case LdFVx => TopLowByte(0xF, 0x29)
    case LdBVx => TopLowByte(0xF, 0x33)
    case LdIVx => TopLowByte(0xF, 0x55)
    case LdVxI => TopLowByte(0xF, 0x65)
  }

  /** Whether an instruction's fields fit a pattern. */
  predicate Matches(ins: Instruction, p: Pattern)
  {
    match p
    case Whole(w) => ins.raw == w
    case Top(op) => ins.op == op
    case TopLowNibble(op, n) => ins.op == op && ins.n == n
    case TopLowByte(op, kk) => ins.op == op && ins.kk == kk
  }

  /** The classifier. Families 0, 8, E and F look at a secondary field;
      every other family is decided by the top nibble alone. A word that fits
      no pattern (a `0nnn` other than `00E0`/`00EE`, an `8xyN` with N outside
      0-7 and E, an `Ex`/`Fx` with an unknown low byte) yields `None`. */
  function Decode(ins: Instruction): (r: Option<InstructionType>)
    ensures r.Some? ==> Matches(ins, Opcode(r.value))
  {
    match ins.op
    case 0x0 => DecodeSystem(ins)
    case 0x1 => Some(Jmp)
    case 0x2 => Some(CallNnn)
    case 0x3 => Some(SeVxKk)
    case 0x4 => Some(SneVxKk)
    case 0x5 => Some(SeVxVy)
    case 0x6 => Some(LdVxKk)
    case 0x7 => Some(AddVxKk)
    case 0x8 => DecodeArithmetic(ins)
    case 0x9 => Some(SneVxVy)
    case 0xA => Some(LdINnn)
    case 0xB => Some(JmpV0Nnn)
    case 0xC => Some(RndVxKk)
    case 0xD => Some(DrwVxVyN)
    case 0xE => DecodeKeys(ins)
    case 0xF => DecodeMisc(ins)
    case _ => None
  }

  /** Family 0: only the two whole words `00E0` and `00EE`. */
  function DecodeSystem(ins: Instruction): (r: Option<InstructionType>)
    requires ins.op == 0x0
    ensures r.Some? ==> Matches(ins, Opcode(r.value))
  {
    match ins.raw
    case 0x00E0 => Some(Cls)
    case 0x00EE => Some(Ret)
    case _ => None
  }

  /** Family 8: register arithmetic, selected by the low nibble. */
  function DecodeArithmetic(ins: Instruction): (r: Option<InstructionType>)
    requires ins.op == 0x8
    ensures r.Some? ==> Matches(ins, Opcode(r.value))
  {
    match ins.n
    case 0x0 => Some(LdVxVy)
    case 0x1 => Some(OrVxVy)
    case 0x2 => Some(AndVxVy)
    case 0x3 => Some(XorVxVy)
    case 0x4 => Some(AddVxVy)
    case 0x5 => Some(SubVxVy)
    case 0x6 => Some(ShrVxVy)
    case 0x7 => Some(SubnVxVy)
    case 0xE => Some(ShlVxVy)
    case _ => None
  }

  /** Family E: key skips, selected by the low byte. */
  function DecodeKeys(ins: Instruction): (r: Option<InstructionType>)
    requires ins.op == 0xE
    ensures r.Some? ==> Matches(ins, Opcode(r.value))
  {
    match ins.kk
    case 0x9E => Some(SkpVx)
    case 0xA1 => Some(SkNpVx)
    case _ => None
  }

  /** Family F: timers, keys, index and memory, selected by the low byte. */
  function DecodeMisc(ins: Instruction): (r: Option<InstructionType>)
    requires ins.op == 0xF
    ensures r.Some? ==> Matches(ins, Opcode(r.value))
  {
    match ins.kk
    case 0x07 => Some(LdVxDt)
    case 0x0A => Some(LdVxK)
    case 0x15 => Some(LdDtVx)
    case 0x18 => Some(LdStVx)
    case 0x1E => Some(AddIVx)
    case 0x29 => Some(LdFVx)
    case 0x33 => Some(LdBVx)
    case 0x55 => Some(LdIVx)
    case 0x65 => Some(LdVxI)
    case _ => None
  }

  /** For a word as fetched, every kind whose pattern the word fits is the one
      the classifier returns: together with the first postcondition of
      `Decode`, a word decodes to `t` exactly when it fits `Opcode(t)`. */
  lemma {:induction false} DecodeComplete(ins: Instruction, t: InstructionType)
    requires ins == Split(ins.raw) && Matches(ins, Opcode(t))
    ensures Decode(ins) == Some(t)
  {
    if Opcode(t).Whole? {
      assert ins.raw < 0x1000;
      assert ins.op == 0;
    }
  }

  /** In family 0 only `00E0` and `00EE` decode. */
  lemma FamilyZero(ins: Instruction)
    requires ins == Split(ins.raw) && ins.op == 0
    ensures Decode(ins).Some? <==> ins.raw == 0x00E0 || ins.raw == 0x00EE
  {
  }

  /** Family 8 decodes only for a low nibble in 0-7 or E. */
  lemma FamilyEight(ins: Instruction)
    requires ins.op == 0x8
    ensures Decode(ins).Some? <==> ins.n <= 0x7 || ins.n == 0xE
  {
  }

  /** Family E decodes only for the low bytes 9E and A1. */
  lemma FamilyE(ins: Instruction)
    requires ins.op == 0xE
    ensures Decode(ins).Some? <==> ins.kk == 0x9E || ins.kk == 0xA1
  {
  }

  /** Family F decodes only for the nine low bytes of its table. */
  lemma FamilyF(ins: Instruction)
    requires ins.op == 0xF
    ensures Decode(ins).Some? <==>
      ins.kk == 0x07 || ins.kk == 0x0A || ins.kk == 0x15 || ins.kk == 0x18 || ins.kk == 0x1E ||
      ins.kk == 0x29 || ins.kk == 0x33 || ins.kk == 0x55 || ins.kk == 0x65
  {
  }

  /** Families 1-7 and 9-D are classified by the top nibble alone, whatever
      the low 12 bits hold. */
  lemma TopNibbleFamilies(a: Instruction, b: Instruction)
    requires a.op == b.op && (0x1 <= a.op <= 0x7 || 0x9 <= a.op <= 0xD)
    ensures Decode(a) == Decode(b) && Decode(a).Some?
  {
  }
}
