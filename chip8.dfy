/** The interpreter's state as a value: memory, registers, stack, timers,
    keypad and display, the layout `Cpu::new` gives them, the fatal
    conditions a cycle can hit, and instruction fetch. */
module Chip8 {
  import opened Words
  import opened Decoder

  const MemorySize := 4096
  const RegisterCount := 16
  const StackSize := 16
  const KeypadSize := 16
  const ProgramStart := 0x200
  const DisplayWidth := 64
  const DisplayHeight := 32

  /** The flag register VF, written by carry, borrow, shift and collision. */
  const VF := 0xF

  /** The sixteen 5-byte hexadecimal digit glyphs 0-F, loaded at address 0. */
  const Font: seq<u8> := [
    0xF0, 0x90, 0x90, 0x90, 0xF0, // 0
    0x20, 0x60, 0x20, 0x20, 0x70, // 1
    0xF0, 0x10, 0xF0, 0x80, 0xF0, // 2
    0xF0, 0x10, 0xF0, 0x10, 0xF0, // 3
    0x90, 0x90, 0xF0, 0x10, 0x10, // 4
    0xF0, 0x80, 0xF0, 0x10, 0xF0, // 5
    0xF0, 0x80, 0xF0, 0x90, 0xF0, // 6
    0xF0, 0x10, 0x20, 0x40, 0x40, // 7
    0xF0, 0x90, 0xF0, 0x90, 0xF0, // 8
    0xF0, 0x90, 0xF0, 0x10, 0xF0, // 9
    0xF0, 0x90, 0xF0, 0x90, 0x90, // A
    0xE0, 0x90, 0xE0, 0x90, 0xE0, // B
    0xF0, 0x80, 0x80, 0x80, 0xF0, // C
    0xE0, 0x90, 0x90, 0x90, 0xE0, // D
    0xF0, 0x80, 0xF0, 0x80, 0xF0, // E
    0xF0, 0x80, 0xF0, 0x80, 0x80  // F
  ]

  /** The display: 64 columns of 32 cells, indexed `[x][y]`. */
  type Grid = seq<seq<bit>>

  predicate IsGrid(g: Grid)
  {
    |g| == DisplayWidth && forall c :: 0 <= c < |g| ==> |g[c]| == DisplayHeight
  }

  /** The whole interpreter state at one instant. */
  datatype Machine = Machine(
    memory: seq<u8>,
    v: seq<u8>,          // general registers V0-VF
    pc: u16,
    sp: u16,
    stack: seq<u16>,
    i: u16,              // the index register I
    delayTimer: u8,
    soundTimer: u8,
    keypad: seq<u8>,
    display: Grid,
    drawFlag: bool
  )
  {
    /** Every buffer has its fixed size, and the stack pointer indexes the
        stack (a call that would move it to 16 is a fatal overflow). */
    predicate Valid()
    {
      |memory| == MemorySize && |v| == RegisterCount && |stack| == StackSize &&
      sp < StackSize && |keypad| == KeypadSize && IsGrid(display)
    }
  }

  /** The fatal conditions of the interpreter. Each one stops the cycle before
      any state changes. */
  datatype Fault =
    | DecodeFailure(raw: u16, at: u16)                  // no instruction kind fits the word
    | Unhandled(kind: InstructionType, raw: u16, at: u16) // decoded, but no handler exists
    | StackOverflow                                       // a call with the stack full
    | MemoryOutOfBounds(address: int)                     // first address past memory touched
    | PcOverflow                                          // the 16-bit program counter would overflow

  datatype Outcome = Executed | Failed(fault: Fault)

  datatype Result<+T> = Ok(value: T) | Err(fault: Fault)

  function Zeros(n: nat): (s: seq<int>)
    ensures |s| == n && forall k :: 0 <= k < n ==> s[k] == 0
  {
    seq(n, _ => 0)
  }

  /** The memory `Cpu::new` builds for a program image: the font at address 0,
      the image at 0x200, zero everywhere else. */
  function InitialMemory(rom: seq<u8>): (mem: seq<u8>)
    requires |rom| <= MemorySize - ProgramStart
    ensures |mem| == MemorySize
    ensures mem[..|Font|] == Font
    ensures mem[ProgramStart..ProgramStart + |rom|] == rom
    ensures forall a :: |Font| <= a < ProgramStart ==> mem[a] == 0
    ensures forall a :: ProgramStart + |rom| <= a < MemorySize ==> mem[a] == 0
  {
    var low := Font + Zeros(ProgramStart - |Font|);
    var high := rom + Zeros(MemorySize - ProgramStart - |rom|);
    assert (low + high)[ProgramStart..ProgramStart + |rom|] == high[..|rom|];
    low + high
  }

  /** The blank display. */
  function Blank(): (g: Grid)
    ensures IsGrid(g)
    ensures forall c, r :: 0 <= c < DisplayWidth && 0 <= r < DisplayHeight ==> g[c][r] == 0
  {
    seq(DisplayWidth, _ => Zeros(DisplayHeight))
  }

  /** The state `Cpu::new` returns for a program image that fits in memory. */
  function Initial(rom: seq<u8>): (m: Machine)
    requires |rom| <= MemorySize - ProgramStart
    ensures m.Valid()
    ensures m.memory[..|Font|] == Font && m.memory[ProgramStart..ProgramStart + |rom|] == rom
    ensures forall a :: |Font| <= a < MemorySize && !(ProgramStart <= a < ProgramStart + |rom|) ==>
      m.memory[a] == 0
    ensures forall k :: 0 <= k < RegisterCount ==> m.v[k] == 0
    ensures forall k :: 0 <= k < StackSize ==> m.stack[k] == 0
    ensures forall k :: 0 <= k < KeypadSize ==> m.keypad[k] == 0
    ensures forall c, r :: 0 <= c < DisplayWidth && 0 <= r < DisplayHeight ==> m.display[c][r] == 0
    ensures m.pc == ProgramStart && m.sp == 0 && m.i == 0
    ensures m.delayTimer == 0 && m.soundTimer == 0 && !m.drawFlag
  {
    Machine(InitialMemory(rom), Zeros(RegisterCount), ProgramStart, 0, Zeros(StackSize), 0,
            0, 0, Zeros(KeypadSize), Blank(), false)
  }

  /** Whether touching `len` bytes from `base` leaves memory, and if so the
      first address outside it. Touching nothing never faults. */
  function RangeFault(base: int, len: nat): (f: Option<Fault>)
    requires 0 <= base
    ensures f.None? <==> len == 0 || base + len <= MemorySize
    ensures f.Some? ==> f.value.MemoryOutOfBounds?
    ensures f.Some? ==> MemorySize <= f.value.address && base <= f.value.address < base + len
    ensures f.Some? ==> f.value.address == base || f.value.address == MemorySize
  {
    if len == 0 || base + len <= MemorySize then None
    else Some(MemoryOutOfBounds(if base < MemorySize then MemorySize else base))
  }

  /** Reads the big-endian word at `pc` and splits it into its fields. Both
      bytes must lie in memory. */
  function Fetch(memory: seq<u8>, pc: u16): (r: Result<Instruction>)
    requires |memory| == MemorySize
    ensures r.Ok? <==> pc + 1 < MemorySize
    ensures r.Ok? ==> r.value.raw == memory[pc] as int * 0x100 + memory[pc + 1]
    ensures r.Ok? ==> r.value == Split(r.value.raw)
    ensures r.Err? ==> r.fault == MemoryOutOfBounds(if pc < MemorySize then pc + 1 else pc)
  {
    match RangeFault(pc, 2)
    case Some(f) => Err(f)
    case None => Ok(Split(memory[pc] as int * 0x100 + memory[pc + 1]))
  }
}
