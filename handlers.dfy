/** The opcode handlers as methods that update the interpreter in place, in
    the order and with the reads and writes of the original handlers. Each is
    proved to leave exactly the state that the matching `Semantics` function
    describes. */
module Handlers {
  import opened Words
  import opened Chip8
  import Decoder
  import Sprite
  import S = Semantics
  import C = Cpu

  type Instruction = Decoder.Instruction

  /** `ret`: pc takes the top stack slot, the pointer drops unless it is
      already 0, and pc moves past the call. */
  method Ret(cpu: C.Cpu)
    requires cpu.Valid() && cpu.stack[cpu.sp] as int + 2 < 0x1_0000
    modifies cpu
    ensures cpu.Valid() && cpu.Abs() == S.Ret(old(cpu.Abs()))
  {
    cpu.pc := cpu.stack[cpu.sp];
    if cpu.sp > 0 {
      cpu.sp := cpu.sp - 1;
    }
    cpu.pc := cpu.pc + 2;
  }

  /** `jmp`. */
  method Jmp(cpu: C.Cpu, ins: Instruction)
    requires cpu.Valid() && ins.InRange()
    modifies cpu
    ensures cpu.Valid() && cpu.Abs() == S.Jmp(old(cpu.Abs()), ins)
  {
    cpu.pc := ins.nnn;
  }

  /** `call_nnn`: raise the pointer, store pc in the new slot, jump. */
  method CallNnn(cpu: C.Cpu, ins: Instruction)
    requires cpu.Valid() && ins.InRange() && cpu.sp + 1 < StackSize
    modifies cpu, cpu.stack
    ensures cpu.Valid() && cpu.Abs() == S.CallNnn(old(cpu.Abs()), ins)
  {
    cpu.sp := cpu.sp + 1;
    cpu.stack[cpu.sp] := cpu.pc;
    cpu.pc := ins.nnn;
  }

  /** `se_vx_kk`: skip when Vx == kk. */
  method SeVxKk(cpu: C.Cpu, ins: Instruction)
    requires cpu.Valid() && ins.InRange() && cpu.pc as int + 4 < 0x1_0000
    modifies cpu
    ensures cpu.Valid() && cpu.Abs() == S.SeVxKk(old(cpu.Abs()), ins)
  {
    if cpu.v[ins.x] == ins.kk {
      cpu.pc := cpu.pc + 4;
      return;
    }
    cpu.pc := cpu.pc + 2;
  }

  /** `sne_vx_kk`: skip when Vx != kk. */
  method SneVxKk(cpu: C.Cpu, ins: Instruction)
    requires cpu.Valid() && ins.InRange() && cpu.pc as int + 4 < 0x1_0000
    modifies cpu
    ensures cpu.Valid() && cpu.Abs() == S.SneVxKk(old(cpu.Abs()), ins)
  {
    if cpu.v[ins.x] != ins.kk {
      cpu.pc := cpu.pc + 4;
      return;
    }
    cpu.pc := cpu.pc + 2;
  }

  /** `se_vx_vy`: skip when Vx == Vy. */
  method SeVxVy(cpu: C.Cpu, ins: Instruction)
    requires cpu.Valid() && ins.InRange() && cpu.pc as int + 4 < 0x1_0000
    modifies cpu
    ensures cpu.Valid() && cpu.Abs() == S.SeVxVy(old(cpu.Abs()), ins)
  {
    if cpu.v[ins.x] == cpu.v[ins.y] {
      cpu.pc := cpu.pc + 4;
      return;
    }
    cpu.pc := cpu.pc + 2;
  }

  /** `sne_vx_vy`: skip when Vx != Vy. */
  method SneVxVy(cpu: C.Cpu, ins: Instruction)
    requires cpu.Valid() && ins.InRange() && cpu.pc as int + 4 < 0x1_0000
    modifies cpu
    ensures cpu.Valid() && cpu.Abs() == S.SneVxVy(old(cpu.Abs()), ins)
  {
    if cpu.v[ins.x] != cpu.v[ins.y] {
      cpu.pc := cpu.pc + 4;
      return;
    }
    cpu.pc := cpu.pc + 2;
  }

  /** `ld_vx_kk`. */
  method LdVxKk(cpu: C.Cpu, ins: Instruction)
    requires cpu.Valid() && ins.InRange() && cpu.pc as int + 2 < 0x1_0000
    modifies cpu, cpu.v
    ensures cpu.Valid() && cpu.Abs() == S.LdVxKk(old(cpu.Abs()), ins)
  {
    cpu.v[ins.x] := ins.kk;
    cpu.pc := cpu.pc + 2;
  }

  /** `add_vx_kk`: the sum is computed wide and truncated to a byte. */
  method AddVxKk(cpu: C.Cpu, ins: Instruction)
    requires cpu.Valid() && ins.InRange() && cpu.pc as int + 2 < 0x1_0000
    modifies cpu, cpu.v
    ensures cpu.Valid() && cpu.Abs() == S.AddVxKk(old(cpu.Abs()), ins)
  {
    var sum := cpu.v[ins.x] as int + ins.kk;
    cpu.v[ins.x] := Wrap8(sum);
    cpu.pc := cpu.pc + 2;
  }

  /** `ld_vx_vy`. */
  method LdVxVy(cpu: C.Cpu, ins: Instruction)
    requires cpu.Valid() && ins.InRange() && cpu.pc as int + 2 < 0x1_0000
    modifies cpu, cpu.v
    ensures cpu.Valid() && cpu.Abs() == S.LdVxVy(old(cpu.Abs()), ins)
  {
    cpu.v[ins.x] := cpu.v[ins.y];
    cpu.pc := cpu.pc + 2;
  }

  /** `or_vx_vy`. */
  method OrVxVy(cpu: C.Cpu, ins: Instruction)
    requires cpu.Valid() && ins.InRange() && cpu.pc as int + 2 < 0x1_0000
    modifies cpu, cpu.v
    ensures cpu.Valid() && cpu.Abs() == S.OrVxVy(old(cpu.Abs()), ins)
  {
    cpu.v[ins.x] := Or(cpu.v[ins.x], cpu.v[ins.y]);
    cpu.pc := cpu.pc + 2;
  }

  /** `and_vx_vy`. */
  method AndVxVy(cpu: C.Cpu, ins: Instruction)
    requires cpu.Valid() && ins.InRange() && cpu.pc as int + 2 < 0x1_0000
    modifies cpu, cpu.v
    ensures cpu.Valid() && cpu.Abs() == S.AndVxVy(old(cpu.Abs()), ins)
  {
    cpu.v[ins.x] := And(cpu.v[ins.x], cpu.v[ins.y]);
    cpu.pc := cpu.pc + 2;
  }

  /** `xor_vx_vy`. */
  method XorVxVy(cpu: C.Cpu, ins: Instruction)
    requires cpu.Valid() && ins.InRange() && cpu.pc as int + 2 < 0x1_0000
    modifies cpu, cpu.v
    ensures cpu.Valid() && cpu.Abs() == S.XorVxVy(old(cpu.Abs()), ins)
  {
    cpu.v[ins.x] := Xor(cpu.v[ins.x], cpu.v[ins.y]);
    cpu.pc := cpu.pc + 2;
  }

  /** `add_vx_vy`: Vx gets the truncated sum, then VF the carry. */
  method AddVxVy(cpu: C.Cpu, ins: Instruction)
    requires cpu.Valid() && ins.InRange() && cpu.pc as int + 2 < 0x1_0000
    modifies cpu, cpu.v
    ensures cpu.Valid() && cpu.Abs() == S.AddVxVy(old(cpu.Abs()), ins)
  {
    var sum := cpu.v[ins.x] as int + cpu.v[ins.y];
    cpu.v[ins.x] := Wrap8(sum);
    cpu.v[VF] := if sum > 0xFF then 1 else 0;
    cpu.pc := cpu.pc + 2;
  }

  /** `sub_vx_vy`: Vx gets the truncated difference, then VF = (Vx > Vy) of
      the operands read before. */
  method SubVxVy(cpu: C.Cpu, ins: Instruction)
    requires cpu.Valid() && ins.InRange() && cpu.pc as int + 2 < 0x1_0000
    modifies cpu, cpu.v
    ensures cpu.Valid() && cpu.Abs() == S.SubVxVy(old(cpu.Abs()), ins)
  {
    var vx: int := cpu.v[ins.x];
    var vy: int := cpu.v[ins.y];
    cpu.v[ins.x] := Wrap8(vx - vy);
    cpu.v[VF] := if vx > vy then 1 else 0;
    cpu.pc := cpu.pc + 2;
  }

  /** `shr_vx_vy`: VF gets the low bit, then Vx the shifted value. */
  method ShrVxVy(cpu: C.Cpu, ins: Instruction)
    requires cpu.Valid() && ins.InRange() && cpu.pc as int + 2 < 0x1_0000
    modifies cpu, cpu.v
    ensures cpu.Valid() && cpu.Abs() == S.ShrVxVy(old(cpu.Abs()), ins)
  {
    var vx: int := cpu.v[ins.x];
    cpu.v[VF] := vx % 2;
    cpu.v[ins.x] := vx / 2;
    cpu.pc := cpu.pc + 2;
  }

  /** `subn_vx_vy`: Vx gets Vy - Vx truncated, then VF = (Vx > Vy) of the
      operands read before. */
  method SubnVxVy(cpu: C.Cpu, ins: Instruction)
    requires cpu.Valid() && ins.InRange() && cpu.pc as int + 2 < 0x1_0000
    modifies cpu, cpu.v
    ensures cpu.Valid() && cpu.Abs() == S.SubnVxVy(old(cpu.Abs()), ins)
  {
    var vx: int := cpu.v[ins.x];
    var vy: int := cpu.v[ins.y];
    cpu.v[ins.x] := Wrap8(vy - vx);
    cpu.v[VF] := if vx > vy then 1 else 0;
    cpu.pc := cpu.pc + 2;
  }

  /** `shl_vx_vy`: VF gets the high bit, then Vx the shifted value truncated. */
  method ShlVxVy(cpu: C.Cpu, ins: Instruction)
    requires cpu.Valid() && ins.InRange() && cpu.pc as int + 2 < 0x1_0000
    modifies cpu, cpu.v
    ensures cpu.Valid() && cpu.Abs() == S.ShlVxVy(old(cpu.Abs()), ins)
  {
    var vx: int := cpu.v[ins.x];
    cpu.v[VF] := vx / 0x80;
    cpu.v[ins.x] := Wrap8(vx * 2);
    cpu.pc := cpu.pc + 2;
  }

  /** `ld_i_nnn`. */
  method LdINnn(cpu: C.Cpu, ins: Instruction)
    requires cpu.Valid() && ins.InRange() && cpu.pc as int + 2 < 0x1_0000
    modifies cpu
    ensures cpu.Valid() && cpu.Abs() == S.LdINnn(old(cpu.Abs()), ins)
  {
    cpu.i := ins.nnn;
    cpu.pc := cpu.pc + 2;
  }

  /** `ld_b_vx`: hundreds, tens and ones of Vx to memory at I, I+1, I+2. */
  method LdBVx(cpu: C.Cpu, ins: Instruction)
    requires cpu.Valid() && ins.InRange() && cpu.pc as int + 2 < 0x1_0000
    requires RangeFault(cpu.i, 3).None?
    modifies cpu, cpu.memory
    ensures cpu.Valid() && cpu.Abs() == S.LdBVx(old(cpu.Abs()), ins)
  {
    var vx: int := cpu.v[ins.x];
    var hundreds := vx / 100;
    var ones := vx % 10;
    var tens := (vx - hundreds * 100) / 10;
    cpu.memory[cpu.i] := hundreds;
    cpu.memory[cpu.i + 1] := tens;
    cpu.memory[cpu.i + 2] := ones;
    cpu.pc := cpu.pc + 2;
  }

  /** `ld_i_vx`: V0..Vx to memory from I on, one register at a time. */
  method LdIVx(cpu: C.Cpu, ins: Instruction)
    requires cpu.Valid() && ins.InRange() && cpu.pc as int + 2 < 0x1_0000
    requires RangeFault(cpu.i, ins.x + 1).None?
    modifies cpu, cpu.memory
    ensures cpu.Valid() && cpu.Abs() == S.LdIVx(old(cpu.Abs()), ins)
  {
    var count := ins.x + 1;
    var k := 0;
    while k < count
      modifies cpu.memory
      invariant 0 <= k <= count
      invariant forall a :: 0 <= a < MemorySize ==>
        cpu.memory[a] == if cpu.i <= a < cpu.i + k then cpu.v[a - cpu.i] else old(cpu.memory[a])
    {
      cpu.memory[cpu.i + k] := cpu.v[k];
      k := k + 1;
    }
    cpu.pc := cpu.pc + 2;
    ghost var m := old(cpu.Abs());
    assert cpu.memory[..] == m.memory[..m.i] + m.v[..count] + m.memory[m.i + count..];
  }

  /** `ld_vx_i`: memory from I on to V0..Vx, one register at a time. */
  method LdVxI(cpu: C.Cpu, ins: Instruction)
    requires cpu.Valid() && ins.InRange() && cpu.pc as int + 2 < 0x1_0000
    requires RangeFault(cpu.i, ins.x + 1).None?
    modifies cpu, cpu.v
    ensures cpu.Valid() && cpu.Abs() == S.LdVxI(old(cpu.Abs()), ins)
  {
    var count := ins.x + 1;
    var k := 0;
    while k < count
      modifies cpu.v
      invariant 0 <= k <= count
      invariant forall a :: 0 <= a < RegisterCount ==>
        cpu.v[a] == if a < k then cpu.memory[cpu.i + a] else old(cpu.v[a])
    {
      cpu.v[k] := cpu.memory[cpu.i + k];
      k := k + 1;
    }
    cpu.pc := cpu.pc + 2;
    ghost var m := old(cpu.Abs());
    assert cpu.v[..] == m.memory[m.i..m.i + count] + m.v[count..];
  }

  /** `drw_vx_vy_n`: VF is cleared, then every set bit of the `n` rows at I,
      most significant first, toggles the cell it lands on (wrapping at the
      edges) and raises VF if that cell was on; finally the redraw flag is
      raised. */
  method DrwVxVyN(cpu: C.Cpu, ins: Instruction)
    requires cpu.Valid() && ins.InRange() && cpu.pc as int + 2 < 0x1_0000
    requires RangeFault(cpu.i, ins.n).None?
    modifies cpu, cpu.v, cpu.display
    ensures cpu.Valid() && cpu.Abs() == S.DrwVxVyN(old(cpu.Abs()), ins)
  {
    var x := cpu.v[ins.x];
    var y := cpu.v[ins.y];
    cpu.v[VF] := 0;
    ghost var g := old(cpu.Grid());
    ghost var rows := if ins.n == 0 then [] else cpu.memory[cpu.i..cpu.i + ins.n];
    var row := 0;
    while row < ins.n
      modifies cpu.v, cpu.display
      invariant 0 <= row <= ins.n
      invariant Drawn(cpu, g, rows, x, y, 8 * row)
      invariant forall a :: 0 <= a < RegisterCount && a != VF ==> cpu.v[a] == old(cpu.v[a])
    {
      var pixel := cpu.memory[cpu.i + row];
      DrawRow(cpu, g, rows, x, y, row, pixel);
      row := row + 1;
    }
    cpu.drawFlag := true;
    cpu.pc := cpu.pc + 2;
    ghost var m := old(cpu.Abs());
    assert m.display == g && m.v[ins.x] == x && m.v[ins.y] == y;
    assert rows == S.SpriteRows(m, ins.n);
    ghost var drawn := Sprite.Draw(g, rows, x, y);
    C.GridExt(cpu.Grid(), drawn);
    assert cpu.v[..] == m.v[VF := if Sprite.Collides(g, rows, x, y) then 1 else 0];
    assert cpu.Abs() == m.(display := drawn, v := cpu.v[..], drawFlag := true, pc := m.pc + 2);
  }

  /** The display and VF after the first `k` bits of the sprite, drawn on
      grid `g`. */
  ghost predicate Drawn(cpu: C.Cpu, g: Grid, rows: seq<u8>, x: u8, y: u8, k: nat)
    requires cpu.Valid() && IsGrid(g)
    reads cpu, cpu.v, cpu.display
  {
    (forall c, r :: 0 <= c < DisplayWidth && 0 <= r < DisplayHeight ==>
      cpu.display[c, r] == Sprite.CellAfter(g, rows, x, y, k, c, r)) &&
    cpu.v[VF] == if Sprite.CollidesBefore(g, rows, x, y, k) then 1 else 0
  }

  /** One pass of the outer loop: the eight bits of sprite row `row`, most
      significant first. */
  method DrawRow(cpu: C.Cpu, ghost g: Grid, ghost rows: seq<u8>, x: u8, y: u8, row: nat, pixel: u8)
    requires cpu.Valid() && IsGrid(g) && |rows| <= DisplayHeight
    requires row < |rows| && pixel == rows[row]
    requires Drawn(cpu, g, rows, x, y, 8 * row)
    modifies cpu.v, cpu.display
    ensures Drawn(cpu, g, rows, x, y, 8 * (row + 1))
    ensures forall a :: 0 <= a < RegisterCount && a != VF ==> cpu.v[a] == old(cpu.v[a])
  {
    var bit := 0;
    while bit < 8
      invariant 0 <= bit <= 8
      invariant Drawn(cpu, g, rows, x, y, 8 * row + bit)
      invariant forall a :: 0 <= a < RegisterCount && a != VF ==> cpu.v[a] == old(cpu.v[a])
    {
      DrawBit(cpu, g, rows, x, y, row, bit, pixel);
      bit := bit + 1;
    }
  }

  /** One pass of the inner loop: bit `bit` of sprite row `row`. */
  method DrawBit(cpu: C.Cpu, ghost g: Grid, ghost rows: seq<u8>, x: u8, y: u8, row: nat, bit: nat, pixel: u8)
    requires cpu.Valid() && IsGrid(g) && |rows| <= DisplayHeight
    requires row < |rows| && bit < 8 && pixel == rows[row]
    requires Drawn(cpu, g, rows, x, y, 8 * row + bit)
    modifies cpu.v, cpu.display
    ensures Drawn(cpu, g, rows, x, y, 8 * row + bit + 1)
    ensures forall a :: 0 <= a < RegisterCount && a != VF ==> cpu.v[a] == old(cpu.v[a])
  {
    ghost var k := 8 * row + bit;
    assert k / 8 == row && k % 8 == bit;
    var xi := (x as int + bit) % DisplayWidth;
    var yi := (y as int + row) % DisplayHeight;
    Sprite.StepCollides(g, rows, x, y, k);
    ghost var collided := Sprite.CollidesBefore(g, rows, x, y, k + 1);
    assert collided <==> cpu.v[VF] == 1 || (Sprite.BitSet(pixel, bit) && g[xi][yi] == 1);
    if Sprite.BitSet(pixel, bit) {
      Sprite.DrawnStep(g, rows, x, y, row, bit, xi, yi);
      assert cpu.display[xi, yi] == g[xi][yi];
      if cpu.display[xi, yi] == 1 {
        cpu.v[VF] := 1;
      }
      cpu.display[xi, yi] := 1 - cpu.display[xi, yi];
    }
    assert cpu.v[VF] == if collided then 1 else 0;
    forall c, r | 0 <= c < DisplayWidth && 0 <= r < DisplayHeight
      ensures cpu.display[c, r] == Sprite.CellAfter(g, rows, x, y, k + 1, c, r)
    {
      Sprite.DrawnStep(g, rows, x, y, row, bit, c, r);
    }
  }
}
