/** What each opcode handler does to the interpreter state, as functions on
    `Machine` values, together with the dispatch that selects a handler and
    the fetch-decode-execute cycle. The imperative handlers in `Handlers`
    are proved to compute exactly these functions. */
module Semantics {
  import opened Words
  import opened Chip8
  import Decoder
  import Sprite

  type Instruction = Decoder.Instruction
  type InstructionType = Decoder.InstructionType

  /** What every handler relies on in its arguments: a state with buffers of
      the right sizes and an instruction whose fields have their widths, as
      fetch produces them. */
  predicate Ready(m: Machine, ins: Instruction)
  {
    m.Valid() && ins.InRange()
  }

  /** `pc += k` does not overflow the 16-bit program counter. */
  predicate CanAdvance(m: Machine, k: nat)
  {
    m.pc as int + k < 0x1_0000
  }

  // ---- Control flow ----

  /** RET: the program counter becomes the address on top of the stack plus 2
      (the instruction after the call). At `sp == 0` nothing is popped: slot 0
      is read and the pointer stays 0. */
  function Ret(m: Machine): (r: Machine)
    requires m.Valid() && m.stack[m.sp] as int + 2 < 0x1_0000
    ensures r.Valid()
    ensures r.pc == m.stack[m.sp] + 2
    ensures r.sp == if m.sp == 0 then 0 else m.sp - 1
    ensures r == m.(pc := r.pc, sp := r.sp)
  {
    var target := m.stack[m.sp];
    var sp := if m.sp > 0 then m.sp - 1 else m.sp;
    m.(pc := target + 2, sp := sp)
  }

  /** JP nnn: the program counter becomes `nnn`, with no further advance. */
  function Jmp(m: Machine, ins: Instruction): (r: Machine)
    requires Ready(m, ins)
    ensures r.Valid() && r.pc < 0x1000
    ensures r == m.(pc := ins.nnn)
  {
    m.(pc := ins.nnn)
  }

  /** CALL nnn: the stack pointer moves up first, the caller's own address is
      stored in the new slot, and the program counter becomes `nnn`. Slot 0 is
      therefore never written by a call. */
  function CallNnn(m: Machine, ins: Instruction): (r: Machine)
    requires Ready(m, ins) && m.sp + 1 < StackSize
    ensures r.Valid() && r.sp == m.sp + 1 && r.pc == ins.nnn
    ensures r.stack[r.sp] == m.pc
    ensures forall j :: 0 <= j < StackSize && j != r.sp ==> r.stack[j] == m.stack[j]
    ensures r == m.(pc := r.pc, sp := r.sp, stack := r.stack)
  {
    var sp := m.sp + 1;
    m.(sp := sp, stack := m.stack[sp := m.pc], pc := ins.nnn)
  }

  /** The skip family: step over the next instruction when `taken`. */
  function Skip(m: Machine, taken: bool): (r: Machine)
    requires m.Valid() && CanAdvance(m, 4)
    ensures r.Valid()
    ensures r == m.(pc := r.pc)
    ensures r.pc - m.pc == 4 <==> taken
    ensures r.pc - m.pc == 2 <==> !taken
  {
    if taken then m.(pc := m.pc + 4) else m.(pc := m.pc + 2)
  }

  /** SE Vx, kk. */
  function SeVxKk(m: Machine, ins: Instruction): (r: Machine)
    requires Ready(m, ins) && CanAdvance(m, 4)
    ensures r == Skip(m, m.v[ins.x] == ins.kk)
  {
    if m.v[ins.x] == ins.kk then m.(pc := m.pc + 4) else m.(pc := m.pc + 2)
  }

  /** SNE Vx, kk. */
  function SneVxKk(m: Machine, ins: Instruction): (r: Machine)
    requires Ready(m, ins) && CanAdvance(m, 4)
    ensures r == Skip(m, m.v[ins.x] != ins.kk)
  {
    if m.v[ins.x] != ins.kk then m.(pc := m.pc + 4) else m.(pc := m.pc + 2)
  }

  /** SE Vx, Vy. */
  function SeVxVy(m: Machine, ins: Instruction): (r: Machine)
    requires Ready(m, ins) && CanAdvance(m, 4)
    ensures r == Skip(m, m.v[ins.x] == m.v[ins.y])
  {
    if m.v[ins.x] == m.v[ins.y] then m.(pc := m.pc + 4) else m.(pc := m.pc + 2)
  }

  /** SNE Vx, Vy. */
  function SneVxVy(m: Machine, ins: Instruction): (r: Machine)
    requires Ready(m, ins) && CanAdvance(m, 4)
    ensures r == Skip(m, m.v[ins.x] != m.v[ins.y])
  {
    if m.v[ins.x] != m.v[ins.y] then m.(pc := m.pc + 4) else m.(pc := m.pc + 2)
  }

  // ---- Registers ----

  /** Registers other than `x` and VF keep their values. */
  predicate OthersKept(m: Machine, r: Machine, x: nat)
    requires m.Valid() && r.Valid()
  {
    forall j :: 0 <= j < RegisterCount && j != x && j != VF ==> r.v[j] == m.v[j]
  }

  /** A handler that writes registers and moves on: only `v` and `pc` change,
      and `pc` by exactly 2. */
  predicate RegisterStep(m: Machine, r: Machine)
    requires m.Valid()
  {
    m.pc as int + 2 < 0x1_0000 && r.Valid() && r == m.(v := r.v, pc := m.pc + 2)
  }

  /** LD Vx, kk. */
  function LdVxKk(m: Machine, ins: Instruction): (r: Machine)
    requires Ready(m, ins) && CanAdvance(m, 2)
    ensures RegisterStep(m, r) && r.v == m.v[ins.x := ins.kk]
  {
    m.(v := m.v[ins.x := ins.kk], pc := m.pc + 2)
  }

  /** ADD Vx, kk: wraps at 256 and leaves VF alone. */
  function AddVxKk(m: Machine, ins: Instruction): (r: Machine)
    requires Ready(m, ins) && CanAdvance(m, 2)
    ensures RegisterStep(m, r)
    ensures (r.v[ins.x] as int - (m.v[ins.x] as int + ins.kk)) % 0x100 == 0
    ensures forall j :: 0 <= j < RegisterCount && j != ins.x ==> r.v[j] == m.v[j]
  {
    var sum := m.v[ins.x] as int + ins.kk;
    m.(v := m.v[ins.x := Wrap8(sum)], pc := m.pc + 2)
  }

  /** LD Vx, Vy. */
  function LdVxVy(m: Machine, ins: Instruction): (r: Machine)
    requires Ready(m, ins) && CanAdvance(m, 2)
    ensures RegisterStep(m, r) && r.v == m.v[ins.x := m.v[ins.y]]
  {
    m.(v := m.v[ins.x := m.v[ins.y]], pc := m.pc + 2)
  }

  /** OR Vx, Vy (VF is not reset). */
  function OrVxVy(m: Machine, ins: Instruction): (r: Machine)
    requires Ready(m, ins) && CanAdvance(m, 2)
    ensures RegisterStep(m, r) && r.v == m.v[ins.x := Or(m.v[ins.x], m.v[ins.y])]
  {
    m.(v := m.v[ins.x := Or(m.v[ins.x], m.v[ins.y])], pc := m.pc + 2)
  }

  /** AND Vx, Vy (VF is not reset). */
  function AndVxVy(m: Machine, ins: Instruction): (r: Machine)
    requires Ready(m, ins) && CanAdvance(m, 2)
    ensures RegisterStep(m, r) && r.v == m.v[ins.x := And(m.v[ins.x], m.v[ins.y])]
  {
    m.(v := m.v[ins.x := And(m.v[ins.x], m.v[ins.y])], pc := m.pc + 2)
  }

  /** XOR Vx, Vy (VF is not reset). */
  function XorVxVy(m: Machine, ins: Instruction): (r: Machine)
    requires Ready(m, ins) && CanAdvance(m, 2)
    ensures RegisterStep(m, r) && r.v == m.v[ins.x := Xor(m.v[ins.x], m.v[ins.y])]
  {
    m.(v := m.v[ins.x := Xor(m.v[ins.x], m.v[ins.y])], pc := m.pc + 2)
  }

  /** ADD Vx, Vy: Vx gets the low byte of the sum, then VF gets the carry.
      Together they hold the 9-bit sum; with x = F the carry overwrites the
      low byte. */
  function AddVxVy(m: Machine, ins: Instruction): (r: Machine)
    requires Ready(m, ins) && CanAdvance(m, 2)
    ensures RegisterStep(m, r) && OthersKept(m, r, ins.x)
    ensures ins.x != VF ==> r.v[ins.x] as int + 0x100 * r.v[VF] as int == m.v[ins.x] as int + m.v[ins.y]
    ensures r.v[VF] == if m.v[ins.x] as int + m.v[ins.y] > 0xFF then 1 else 0
  {
    var sum := m.v[ins.x] as int + m.v[ins.y];
    var v1 := m.v[ins.x := Wrap8(sum)];
    var v2 := v1[VF := if sum > 0xFF then 1 else 0];
    m.(v := v2, pc := m.pc + 2)
  }

  /** SUB Vx, Vy: Vx gets `Vx - Vy` wrapped, then VF gets `Vx > Vy` of the
      values before the write. The comparison is strict, so equal operands
      give VF = 0 although nothing was borrowed. */
  function SubVxVy(m: Machine, ins: Instruction): (r: Machine)
    requires Ready(m, ins) && CanAdvance(m, 2)
    ensures RegisterStep(m, r) && OthersKept(m, r, ins.x)
    ensures r.v[VF] == if m.v[ins.x] > m.v[ins.y] then 1 else 0
    ensures ins.x != VF ==> (r.v[ins.x] as int - (m.v[ins.x] as int - m.v[ins.y])) % 0x100 == 0
    ensures ins.x != VF && m.v[ins.x] != m.v[ins.y] ==>
      r.v[ins.x] as int - 0x100 * (1 - r.v[VF] as int) == m.v[ins.x] as int - m.v[ins.y]
  {
    var vx: int := m.v[ins.x];
    var vy: int := m.v[ins.y];
    var v1 := m.v[ins.x := Wrap8(vx - vy)];
    var v2 := v1[VF := if vx > vy then 1 else 0];
    m.(v := v2, pc := m.pc + 2)
  }

  /** SUBN Vx, Vy: Vx gets `Vy - Vx` wrapped, then VF gets `Vx > Vy` of the
      values before the write -- the same test as SUB, so VF = 1 exactly when
      the subtraction performed here borrows. */
  function SubnVxVy(m: Machine, ins: Instruction): (r: Machine)
    requires Ready(m, ins) && CanAdvance(m, 2)
    ensures RegisterStep(m, r) && OthersKept(m, r, ins.x)
    ensures r.v[VF] == if m.v[ins.x] > m.v[ins.y] then 1 else 0
    ensures ins.x != VF ==> (r.v[ins.x] as int - (m.v[ins.y] as int - m.v[ins.x])) % 0x100 == 0
    ensures ins.x != VF ==> r.v[ins.x] as int - 0x100 * r.v[VF] as int == m.v[ins.y] as int - m.v[ins.x]
  {
    var vx: int := m.v[ins.x];
    var vy: int := m.v[ins.y];
    var v1 := m.v[ins.x := Wrap8(vy - vx)];
    var v2 := v1[VF := if vx > vy then 1 else 0];
    m.(v := v2, pc := m.pc + 2)
  }

  /** SHR Vx: VF gets the bit shifted out, then Vx gets `Vx >> 1`; Vy is not
      used. With x = F the shifted value overwrites the flag. */
  function ShrVxVy(m: Machine, ins: Instruction): (r: Machine)
    requires Ready(m, ins) && CanAdvance(m, 2)
    ensures RegisterStep(m, r) && OthersKept(m, r, ins.x)
    ensures ins.x != VF ==> 2 * r.v[ins.x] as int + r.v[VF] == m.v[ins.x] && r.v[VF] < 2
    ensures ins.x == VF ==> 2 * r.v[VF] as int <= m.v[VF] <= 2 * r.v[VF] as int + 1
  {
    var vx: int := m.v[ins.x];
    var v1 := m.v[VF := vx % 2];
    var v2 := v1[ins.x := vx / 2];
    m.(v := v2, pc := m.pc + 2)
  }

  /** SHL Vx: VF gets the bit shifted out, then Vx gets `Vx << 1` wrapped; Vy
      is not used. With x = F the shifted value overwrites the flag. */
  function ShlVxVy(m: Machine, ins: Instruction): (r: Machine)
    requires Ready(m, ins) && CanAdvance(m, 2)
    ensures RegisterStep(m, r) && OthersKept(m, r, ins.x)
    ensures ins.x != VF ==> r.v[ins.x] as int + 0x100 * r.v[VF] as int == 2 * m.v[ins.x] as int && r.v[VF] < 2
    ensures ins.x == VF ==> (r.v[VF] as int - 2 * m.v[VF] as int) % 0x100 == 0
  {
    var vx: int := m.v[ins.x];
    var v1 := m.v[VF := vx / 0x80];
    var v2 := v1[ins.x := Wrap8(vx * 2)];
    m.(v := v2, pc := m.pc + 2)
  }

  // ---- Index register, display and memory ----

  /** LD I, nnn: no flag is touched. */
  function LdINnn(m: Machine, ins: Instruction): (r: Machine)
    requires Ready(m, ins) && CanAdvance(m, 2)
    ensures r.Valid() && r.i < 0x1000
    ensures r == m.(i := ins.nnn, pc := m.pc + 2)
  {
    m.(i := ins.nnn, pc := m.pc + 2)
  }

  /** The `n` sprite rows that DRW reads from memory at I. */
  function SpriteRows(m: Machine, n: nat): (rows: seq<u8>)
    requires m.Valid() && RangeFault(m.i, n).None?
    ensures |rows| == n
    ensures forall k :: 0 <= k < n ==> rows[k] == m.memory[m.i + k]
  {
    if n == 0 then [] else m.memory[m.i..m.i + n]
  }

  /** DRW Vx, Vy, n: XOR the n-row sprite at I onto the display at
      (Vx, Vy) with wrap-around; VF becomes 1 exactly when a lit cell was
      hit, and the redraw flag is raised. */
  function DrwVxVyN(m: Machine, ins: Instruction): (r: Machine)
    requires Ready(m, ins) && RangeFault(m.i, ins.n).None? && CanAdvance(m, 2)
    ensures r.Valid() && r.drawFlag && r.pc == m.pc + 2
    ensures var rows := SpriteRows(m, ins.n);
      r.display == Sprite.Draw(m.display, rows, m.v[ins.x], m.v[ins.y]) &&
      r.v[VF] == (if Sprite.PixelCollides(m.display, rows, m.v[ins.x], m.v[ins.y]) then 1 else 0)
    ensures r.v == m.v[VF := r.v[VF]]
    ensures r == m.(display := r.display, v := r.v, drawFlag := true, pc := r.pc)
  {
    var x, y := m.v[ins.x], m.v[ins.y];
    var rows := SpriteRows(m, ins.n);
    Sprite.CollidesIff(m.display, rows, x, y);
    var collided := Sprite.Collides(m.display, rows, x, y);
    m.(display := Sprite.Draw(m.display, rows, x, y),
       v := m.v[VF := if collided then 1 else 0],
       drawFlag := true,
       pc := m.pc + 2)
  }

  /** LD [I], Vx: V0..Vx (inclusive) go to memory at I..I+x; nothing else in
      memory and no register changes, and I stays where it was. */
  function LdIVx(m: Machine, ins: Instruction): (r: Machine)
    requires Ready(m, ins) && RangeFault(m.i, ins.x + 1).None? && CanAdvance(m, 2)
    ensures r.Valid() && r.pc == m.pc + 2
    ensures forall k :: 0 <= k <= ins.x ==> r.memory[m.i + k] == m.v[k]
    ensures forall a :: 0 <= a < MemorySize && !(m.i <= a <= m.i + ins.x) ==> r.memory[a] == m.memory[a]
    ensures r == m.(memory := r.memory, pc := r.pc)
  {
    var count := ins.x + 1;
    m.(memory := m.memory[..m.i] + m.v[..count] + m.memory[m.i + count..], pc := m.pc + 2)
  }

  /** LD Vx, [I]: memory at I..I+x goes to V0..Vx (inclusive); registers above
      x and I are unchanged. */
  function LdVxI(m: Machine, ins: Instruction): (r: Machine)
    requires Ready(m, ins) && RangeFault(m.i, ins.x + 1).None? && CanAdvance(m, 2)
    ensures r.Valid() && r.pc == m.pc + 2
    ensures forall k :: 0 <= k <= ins.x ==> r.v[k] == m.memory[m.i + k]
    ensures forall k :: ins.x < k < RegisterCount ==> r.v[k] == m.v[k]
    ensures r == m.(v := r.v, pc := r.pc)
  {
    var count := ins.x + 1;
    m.(v := m.memory[m.i..m.i + count] + m.v[count..], pc := m.pc + 2)
  }

  /** The three decimal digits of a byte, hundreds first, computed as the
      handler does (the tens digit from what is left after the hundreds). */
  function Digits(b: u8): (d: seq<u8>)
    ensures |d| == 3 && d[0] <= 2 && d[1] <= 9 && d[2] <= 9
    ensures 100 * d[0] as int + 10 * d[1] as int + d[2] == b
  {
    var n: int := b;
    var hundreds := n / 100;
    var ones := n % 10;
    var tens := (n - hundreds * 100) / 10;
    [hundreds, tens, ones]
  }

  /** LD B, Vx: the decimal digits of Vx go to memory at I, I+1, I+2. */
  function LdBVx(m: Machine, ins: Instruction): (r: Machine)
    requires Ready(m, ins) && RangeFault(m.i, 3).None? && CanAdvance(m, 2)
    ensures r.Valid() && r.pc == m.pc + 2
    ensures r.memory[m.i..m.i + 3] == Digits(m.v[ins.x])
    ensures forall a :: 0 <= a < MemorySize && !(m.i <= a < m.i + 3) ==> r.memory[a] == m.memory[a]
    ensures r == m.(memory := r.memory, pc := r.pc)
  {
    var d := Digits(m.v[ins.x]);
    var mem := m.memory[m.i := d[0]][m.i + 1 := d[1]][m.i + 2 := d[2]];
    m.(memory := mem, pc := m.pc + 2)
  }

  // ---- Dispatch ----

  /** The instruction kinds that have a handler. The others (CLS, JP V0, RND,
      the key skips and waits, the timer loads, ADD I and LD F) are reported
      as unhandled. */
  predicate Handled(t: InstructionType)
  {
    match t
    case Cls | JmpV0Nnn | RndVxKk | SkpVx | SkNpVx | LdVxDt | LdVxK | LdDtVx | LdStVx
      | AddIVx | LdFVx => false
    case _ => true
  }

  function PcFault(pc: u16, k: nat): (f: Decoder.Option<Fault>)
    ensures f.None? <==> pc + k < 0x1_0000
  {
    if pc + k < 0x1_0000 then Decoder.None else Decoder.Some(PcOverflow)
  }

  /** The first fatal condition that executing `t` would hit, checked before
      anything changes: a missing handler first, then the handler's own stack,
      memory and program-counter limits in the order it meets them. `top` is
      the stack slot `sp` points at. */
  function Check(t: InstructionType, ins: Instruction, pc: u16, sp: u16, top: u16, i: u16):
    (f: Decoder.Option<Fault>)
    requires ins.InRange()
    ensures !Handled(t) ==> f == Decoder.Some(Unhandled(t, ins.raw, pc))
    ensures f.Some? && Handled(t) ==> !f.value.Unhandled?
  {
    match t
    case Cls | JmpV0Nnn | RndVxKk | SkpVx | SkNpVx | LdVxDt | LdVxK | LdDtVx | LdStVx
      | AddIVx | LdFVx => Decoder.Some(Unhandled(t, ins.raw, pc))
    case Ret => if top + 2 < 0x1_0000 then Decoder.None else Decoder.Some(PcOverflow)
    case Jmp => Decoder.None
    case CallNnn => if sp + 1 < StackSize then Decoder.None else Decoder.Some(StackOverflow)
    case SeVxKk | SneVxKk | SeVxVy | SneVxVy => PcFault(pc, 4)
    case LdVxKk | AddVxKk | LdVxVy | OrVxVy | AndVxVy | XorVxVy | AddVxVy | SubVxVy
      | ShrVxVy | SubnVxVy | ShlVxVy | LdINnn => PcFault(pc, 2)
    case DrwVxVyN =>
      if RangeFault(i, ins.n).Some? then RangeFault(i, ins.n) else PcFault(pc, 2)
    case LdIVx | LdVxI =>
      if RangeFault(i, ins.x + 1).Some? then RangeFault(i, ins.x + 1) else PcFault(pc, 2)
    case LdBVx =>
      if RangeFault(i, 3).Some? then RangeFault(i, 3) else PcFault(pc, 2)
  }

  /** How many bytes of memory from I the handler of `t` reads or writes. */
  function Touched(t: InstructionType, ins: Instruction): nat
  {
    match t
    case DrwVxVyN => ins.n
    case LdIVx | LdVxI => ins.x + 1
    case LdBVx => 3
    case _ => 0
  }

  /** Runs the handler of `t`, which `Check` has cleared. */
  function Apply(m: Machine, t: InstructionType, ins: Instruction): (r: Machine)
    requires Ready(m, ins) && Check(t, ins, m.pc, m.sp, m.stack[m.sp], m.i).None?
    ensures r.Valid()
  {
    match t
    case Ret => Ret(m)
    case Jmp => Jmp(m, ins)
    case CallNnn => CallNnn(m, ins)
    case SeVxKk => SeVxKk(m, ins)
    case SneVxKk => SneVxKk(m, ins)
    case SeVxVy => SeVxVy(m, ins)
    case LdVxKk => LdVxKk(m, ins)
    case AddVxKk => AddVxKk(m, ins)
    case LdVxVy => LdVxVy(m, ins)
    case OrVxVy => OrVxVy(m, ins)
    case AndVxVy => AndVxVy(m, ins)
    case XorVxVy => XorVxVy(m, ins)
    case AddVxVy => AddVxVy(m, ins)
    case SubVxVy => SubVxVy(m, ins)
    case ShrVxVy => ShrVxVy(m, ins)
    case SubnVxVy => SubnVxVy(m, ins)
    case ShlVxVy => ShlVxVy(m, ins)
    case SneVxVy => SneVxVy(m, ins)
    case LdINnn => LdINnn(m, ins)
    case DrwVxVyN => DrwVxVyN(m, ins)
    case LdIVx => LdIVx(m, ins)
    case LdVxI => LdVxI(m, ins)
    case LdBVx => LdBVx(m, ins)
  }

  /** Execute one decoded instruction: a fatal condition leaves the state
      exactly as it was and is reported; otherwise the handler runs. */
  function Execute(m: Machine, t: InstructionType, ins: Instruction): (r: (Machine, Outcome))
    requires Ready(m, ins)
    ensures r.0.Valid()
    ensures r.1.Failed? ==> r.0 == m
    ensures !Handled(t) ==> r.1 == Failed(Unhandled(t, ins.raw, m.pc))
    ensures t == Decoder.CallNnn ==> (r.1 == Failed(StackOverflow) <==> m.sp == StackSize - 1)
    ensures RangeFault(m.i, Touched(t, ins)).Some? ==>
      r.1 == Failed(RangeFault(m.i, Touched(t, ins)).value)
    ensures r.1.Failed? && r.1.fault.MemoryOutOfBounds? ==> RangeFault(m.i, Touched(t, ins)).Some?
  {
    match Check(t, ins, m.pc, m.sp, m.stack[m.sp], m.i)
    case Some(f) => (m, Failed(f))
    case None => (Apply(m, t, ins), Executed)
  }

  /** One clock cycle: fetch the word at pc, decode it, execute it. A word
      outside memory or one that decodes to nothing ends the cycle with the
      state unchanged. */
  function Cycle(m: Machine): (r: (Machine, Outcome))
    requires m.Valid()
    ensures r.0.Valid()
    ensures r.1.Failed? ==> r.0 == m
    ensures r.1.Failed? && r.1.fault.DecodeFailure? ==>
      r.1.fault.at == m.pc && Decoder.Decode(Decoder.Split(r.1.fault.raw)).None?
  {
    match Fetch(m.memory, m.pc)
    case Err(f) => (m, Failed(f))
    case Ok(ins) =>
      match Decoder.Decode(ins)
      case None => (m, Failed(DecodeFailure(ins.raw, m.pc)))
      case Some(t) => Execute(m, t, ins)
  }
}
