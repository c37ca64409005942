/** The interpreter as an object whose buffers are updated in place: fixed
    arrays for memory, registers, stack, keypad and display, and mutable
    scalar registers. `Abs` reads the object as a `Machine` value, which is
    how the handlers' contracts relate each update to `Semantics`. */
module Cpu {
  import opened Words
  import opened Chip8
  import Decoder

  /** Two grids with the same cells are the same grid. */
  lemma {:induction false} GridExt(g: Grid, h: Grid)
    requires IsGrid(g) && IsGrid(h)
    requires forall c, r :: 0 <= c < DisplayWidth && 0 <= r < DisplayHeight ==> g[c][r] == h[c][r]
    ensures g == h
  {
    forall c | 0 <= c < DisplayWidth
      ensures g[c] == h[c]
    {
      assert forall r | 0 <= r < DisplayHeight :: g[c][r] == h[c][r];
    }
  }

  /** Copies `src` into `mem` from address `at` on; every other byte keeps
      its value. */
  method Blit(mem: array<u8>, at: nat, src: seq<u8>)
    requires at + |src| <= mem.Length
    modifies mem
    ensures forall a :: 0 <= a < mem.Length ==>
      mem[a] == if at <= a < at + |src| then src[a - at] else old(mem[a])
  {
    var k := 0;
    while k < |src|
      invariant 0 <= k <= |src|
      invariant forall a :: 0 <= a < mem.Length ==>
        mem[a] == if at <= a < at + k then src[a - at] else old(mem[a])
    {
      mem[at + k] := src[k];
      k := k + 1;
    }
  }

  /** The memory image of `Cpu::new`: a zeroed buffer with the font copied
      to address 0 and the program image to 0x200. */
  method LoadMemory(rom: seq<u8>) returns (mem: array<u8>)
    requires |rom| <= MemorySize - ProgramStart
    ensures fresh(mem) && mem[..] == InitialMemory(rom)
  {
    mem := new u8[MemorySize](_ => 0);
    Blit(mem, 0, Font);
    Blit(mem, ProgramStart, rom);
    ghost var init := InitialMemory(rom);
    forall a | 0 <= a < MemorySize
      ensures mem[a] == init[a]
    {
      if a < |Font| {
        assert init[..|Font|][a] == Font[a];
      } else if ProgramStart <= a < ProgramStart + |rom| {
        assert init[ProgramStart..ProgramStart + |rom|][a - ProgramStart] == rom[a - ProgramStart];
      }
    }
  }

  class Cpu {
    const memory: array<u8>
    const v: array<u8>
    var pc: u16
    var sp: u16
    const stack: array<u16>
    var i: u16
    var delayTimer: u8
    var soundTimer: u8
    const keypad: array<u8>
    /** 64 columns of 32 cells, indexed `[x, y]`. */
    const display: array2<bit>
    var drawFlag: bool

    /** Buffers of the fixed sizes, the byte buffers distinct from each
        other, and the stack pointer inside the stack. */
    ghost predicate Valid()
      reads this
    {
      memory.Length == MemorySize && v.Length == RegisterCount &&
      stack.Length == StackSize && keypad.Length == KeypadSize &&
      display.Length0 == DisplayWidth && display.Length1 == DisplayHeight &&
      memory != v && memory != keypad && v != keypad &&
      sp < StackSize
    }

    /** A copy of the display, column by column. */
    function Grid(): (g: Chip8.Grid)
      requires display.Length0 == DisplayWidth && display.Length1 == DisplayHeight
      reads display
      ensures IsGrid(g)
      ensures forall c, r :: 0 <= c < DisplayWidth && 0 <= r < DisplayHeight ==> g[c][r] == display[c, r]
    {
      seq(DisplayWidth, c requires 0 <= c < DisplayWidth reads display =>
        seq(DisplayHeight, r requires 0 <= r < DisplayHeight reads display => display[c, r]))
    }

    /** The state as a value. */
    ghost function Abs(): (m: Machine)
      requires Valid()
      reads this, memory, v, stack, keypad, display
      ensures m.Valid()
    {
      Machine(memory[..], v[..], pc, sp, stack[..], i, delayTimer, soundTimer, keypad[..],
              Grid(), drawFlag)
    }

    /** `Cpu::new`: the font at address 0, the program image at 0x200, every
        other byte, register, slot, timer, key and cell zero, pc at 0x200. */
    constructor (rom: seq<u8>)
      requires |rom| <= MemorySize - ProgramStart
      ensures Valid() && Abs() == Initial(rom)
      ensures fresh(memory) && fresh(v) && fresh(stack) && fresh(keypad) && fresh(display)
    {
      var mem := LoadMemory(rom);
      memory := mem;
      v := new u8[RegisterCount](_ => 0);
      pc := ProgramStart;
      sp := 0;
      stack := new u16[StackSize](_ => 0);
      i := 0;
      delayTimer := 0;
      soundTimer := 0;
      keypad := new u8[KeypadSize](_ => 0);
      display := new bit[DisplayWidth, DisplayHeight]((_, _) => 0);
      drawFlag := false;
      new;
      assert v[..] == Zeros(RegisterCount);
      assert stack[..] == Zeros(StackSize);
      assert keypad[..] == Zeros(KeypadSize);
      GridExt(Grid(), Blank());
    }

    /** `fetch`: the big-endian word at pc, split into its fields; reading
        past the end of memory is reported instead. Nothing changes. */
    method Fetch() returns (r: Result<Decoder.Instruction>)
      requires Valid()
      ensures r == Chip8.Fetch(memory[..], pc)
    {
      if pc as int + 1 >= MemorySize {
        return Err(MemoryOutOfBounds(if pc < MemorySize then pc + 1 else pc));
      }
      var raw := memory[pc] as int * 0x100 + memory[pc + 1];
      return Ok(Decoder.Split(raw));
    }
  }
}
