/** Properties that relate several steps of the interpreter: nested calls
    and returns, the stack depth, store/load round trips, redrawing a sprite,
    what stops a cycle, and the before/after examples that the interpreter's
    own test programs check. */
module Properties {
  import opened Words
  import opened Chip8
  import Decoder
  import Sprite
  import opened Semantics

  /** The CALL word `2nnn` for a 12-bit target. */
  function CallWord(target: nat): (ins: Instruction)
    requires target < 0x1000
    ensures ins.InRange() && ins.nnn == target
    ensures Decoder.Decode(ins) == Decoder.Some(Decoder.CallNnn)
  {
    Decoder.Split(0x2000 + target)
  }

  /** A chain of calls: the first made from `m`, each next one from the entry
      point of the previous callee. */
  function Calls(m: Machine, targets: seq<nat>): (r: Machine)
    requires m.Valid() && m.sp + |targets| < StackSize
    requires forall k :: 0 <= k < |targets| ==> targets[k] < 0x1000
    ensures r.Valid() && r.sp == m.sp + |targets|
    ensures r == m.(pc := r.pc, sp := r.sp, stack := r.stack)
    ensures |targets| > 0 ==> r.pc == targets[|targets| - 1]
    ensures forall j :: 0 <= j <= m.sp ==> r.stack[j] == m.stack[j]
    ensures |targets| > 0 ==> r.stack[m.sp + 1] == m.pc
    ensures forall j :: m.sp + 1 < j <= m.sp + |targets| ==> r.stack[j] == targets[j - m.sp - 2]
    decreases |targets|
  {
    if targets == [] then m
    else
      var prev := Calls(m, targets[..|targets| - 1]);
      CallNnn(prev, CallWord(targets[|targets| - 1]))
  }

  /** `k` returns in a row. */
  function Returns(m: Machine, k: nat): (r: Machine)
    requires m.Valid() && k <= m.sp
    requires forall j :: m.sp - k < j <= m.sp ==> m.stack[j] as int + 2 < 0x1_0000
    ensures r.Valid() && r.sp == m.sp - k
    ensures r == m.(pc := r.pc, sp := r.sp)
    ensures k > 0 ==> r.pc == m.stack[m.sp - k + 1] + 2
    decreases k
  {
    if k == 0 then m else Ret(Returns(m, k - 1))
  }

  /** A call followed by a return resumes two bytes after the call site with
      the stack pointer restored; only the popped slot keeps the return
      address. */
  lemma CallThenRet(m: Machine, ins: Instruction)
    requires Ready(m, ins) && m.sp + 1 < StackSize && CanAdvance(m, 2)
    ensures Ret(CallNnn(m, ins)) == m.(pc := m.pc + 2, stack := m.stack[m.sp + 1 := m.pc])
  {
  }

  /** However deep a chain of nested calls, as many returns bring the program
      counter back to just after the outermost call, with the stack pointer
      where it was. */
  lemma {:induction false} CallsThenReturns(m: Machine, targets: seq<nat>)
    requires m.Valid() && m.sp + |targets| < StackSize && CanAdvance(m, 2)
    requires forall k :: 0 <= k < |targets| ==> targets[k] < 0x1000
    requires |targets| > 0
    ensures var c := Calls(m, targets);
      forall j :: c.sp - |targets| < j <= c.sp ==> c.stack[j] as int + 2 < 0x1_0000
    ensures var c := Calls(m, targets);
      Returns(c, |targets|) == m.(pc := m.pc + 2, stack := c.stack)
  {
    var c := Calls(m, targets);
    forall j | c.sp - |targets| < j <= c.sp
      ensures c.stack[j] as int + 2 < 0x1_0000
    {
      if j > m.sp + 1 {
        assert c.stack[j] == targets[j - m.sp - 2];
      }
    }
  }

  /** From an empty stack fifteen nested calls fit; the sixteenth is a stack
      overflow, because the pointer moves up before the store and slot 0 is
      never used by a call. */
  lemma CallDepth(m: Machine, targets: seq<nat>, next: nat)
    requires m.Valid() && m.sp == 0 && |targets| == StackSize - 1 && next < 0x1000
    requires forall k :: 0 <= k < |targets| ==> targets[k] < 0x1000
    ensures Calls(m, targets).sp == StackSize - 1
    ensures Execute(Calls(m, targets), Decoder.CallNnn, CallWord(next)) ==
      (Calls(m, targets), Failed(StackOverflow))
  {
  }

  /** RET with an empty stack does not fail: it jumps to slot 0 plus 2. */
  lemma RetAtEmptyStack(m: Machine, ins: Instruction)
    requires Ready(m, ins) && m.sp == 0 && m.stack[0] as int + 2 < 0x1_0000
    ensures Execute(m, Decoder.Ret, ins) == (m.(pc := m.stack[0] + 2), Executed)
  {
  }

  /** Storing V0..Vx and loading them back restores them, whatever the
      registers held in between; registers above x keep the in-between
      values. */
  lemma StoreThenLoad(m: Machine, ins: Instruction, between: seq<u8>)
    requires Ready(m, ins) && RangeFault(m.i, ins.x + 1).None? && CanAdvance(m, 4)
    requires |between| == RegisterCount
    ensures var stored := LdIVx(m, ins);
      var loaded := LdVxI(stored.(v := between), ins);
      loaded.v[..ins.x + 1] == m.v[..ins.x + 1] &&
      loaded.v[ins.x + 1..] == between[ins.x + 1..] &&
      loaded.memory == stored.memory
  {
  }

  /** Drawing the same sprite twice at the same place restores the display
      (when neither coordinate register is VF, which the first draw
      overwrites), and the second draw reports a collision exactly when the
      sprite hits some cell that was off before the first draw. */
  lemma DrawTwice(m: Machine, ins: Instruction)
    requires Ready(m, ins) && RangeFault(m.i, ins.n).None? && CanAdvance(m, 4)
    requires ins.x != VF && ins.y != VF
    ensures var once := DrwVxVyN(m, ins);
      var twice := DrwVxVyN(once, ins);
      twice.display == m.display &&
      twice.v[VF] == if exists c, r | 0 <= c < DisplayWidth && 0 <= r < DisplayHeight ::
          Sprite.Hit(SpriteRows(m, ins.n), m.v[ins.x], m.v[ins.y], c, r) && m.display[c][r] == 0
        then 1 else 0
  {
    var once := DrwVxVyN(m, ins);
    var rows := SpriteRows(m, ins.n);
    assert SpriteRows(once, ins.n) == rows;
    Sprite.DrawTwice(m.display, rows, m.v[ins.x], m.v[ins.y]);
    Sprite.RedrawCollides(m.display, rows, m.v[ins.x], m.v[ins.y]);
    Sprite.CollidesIff(once.display, rows, m.v[ins.x], m.v[ins.y]);
  }

  /** A word that fails to decode ends the cycle with the state unchanged
      and the word and its address reported. */
  lemma DecodeFailureStops(m: Machine)
    requires m.Valid() && Fetch(m.memory, m.pc).Ok?
    requires Decoder.Decode(Fetch(m.memory, m.pc).value).None?
    ensures Cycle(m) == (m, Failed(DecodeFailure(Fetch(m.memory, m.pc).value.raw, m.pc)))
  {
  }

  /** A decoded kind without a handler is reported, not skipped: the cycle
      ends with the state unchanged. */
  lemma UnhandledStops(m: Machine, t: InstructionType)
    requires m.Valid() && Fetch(m.memory, m.pc).Ok?
    requires Decoder.Decode(Fetch(m.memory, m.pc).value) == Decoder.Some(t) && !Handled(t)
    ensures Cycle(m) == (m, Failed(Unhandled(t, Fetch(m.memory, m.pc).value.raw, m.pc)))
  {
  }

  // ---- The test programs ----

  /** `cycles` clock cycles; a failed cycle leaves the state as it was. */
  function Run(m: Machine, cycles: nat): (r: Machine)
    requires m.Valid()
    ensures r.Valid()
    decreases cycles
  {
    if cycles == 0 then m else Cycle(Run(m, cycles - 1)).0
  }

  lemma BcdExamples()
    ensures Digits(0xAE) == [1, 7, 4]
    ensures Digits(0xFF) == [2, 5, 5]
  {
  }

  /** One cycle at a state whose pc holds the word `hi lo` of kind `t`, when
      nothing stops it, runs the handler of `t`. */
  lemma CycleRuns(m: Machine, hi: u8, lo: u8, t: InstructionType)
    requires m.Valid() && m.pc as int + 1 < MemorySize
    requires m.memory[m.pc] == hi && m.memory[m.pc + 1] == lo
    requires Decoder.Decode(Decoder.Split(hi as int * 0x100 + lo)) == Decoder.Some(t)
    requires Check(t, Decoder.Split(hi as int * 0x100 + lo), m.pc, m.sp, m.stack[m.sp], m.i).None?
    ensures Cycle(m) == (Apply(m, t, Decoder.Split(hi as int * 0x100 + lo)), Executed)
  {
    var ins := Decoder.Split(hi as int * 0x100 + lo);
    assert Fetch(m.memory, m.pc) == Ok(ins);
    assert Cycle(m) == Execute(m, t, ins);
  }

  /** One cycle at a state whose pc holds LD Vx, kk sets Vx and moves on. */
  lemma LoadImmediateStep(m: Machine, x: nat, kk: u8)
    requires m.Valid() && x < RegisterCount && m.pc as int + 2 < MemorySize
    requires m.memory[m.pc] as int == 0x60 + x && m.memory[m.pc + 1] == kk
    ensures Cycle(m).0 == m.(v := m.v[x := kk], pc := m.pc + 2)
  {
    var hi := m.memory[m.pc];
    var ins := Decoder.Split(hi as int * 0x100 + kk);
    Decoder.SplitJoin(6, x, kk / 0x10, kk % 0x10);
    assert ins.op == 6 && ins.x == x && ins.kk == kk;
    CycleRuns(m, hi, kk, Decoder.LdVxKk);
  }

  /** Two cycles of LD V1, a; LD V2, b at the start of a loaded program. */
  lemma LoadPairRuns(m0: Machine, rom: seq<u8>)
    requires Loaded(m0, rom) && |rom| >= 4 && rom[0] == 0x61 && rom[2] == 0x62
    ensures Run(m0, 2) == m0.(v := m0.v[1 := rom[1]][2 := rom[3]], pc := 0x204)
  {
    LoadImmediateStep(m0, 1, rom[1]);
    var m1 := m0.(v := m0.v[1 := rom[1]], pc := 0x202);
    assert Run(m0, 1) == m1;
    LoadImmediateStep(m1, 2, rom[3]);
  }

  /** A state with `rom` loaded at 0x200 and about to run it. */
  predicate Loaded(m: Machine, rom: seq<u8>)
  {
    m.Valid() && m.pc == ProgramStart && m.sp == 0 && |rom| <= MemorySize - ProgramStart &&
    forall k :: 0 <= k < |rom| ==> m.memory[ProgramStart + k] == rom[k]
  }

  lemma InitialLoaded(rom: seq<u8>)
    requires |rom| <= MemorySize - ProgramStart
    ensures Loaded(Initial(rom), rom)
  {
    forall k | 0 <= k < |rom|
      ensures Initial(rom).memory[ProgramStart + k] == rom[k]
    {
      assert Initial(rom).memory[ProgramStart..ProgramStart + |rom|][k] == rom[k];
    }
  }

  /** LD V1, 0xFE; LD V2, 0xAB; ADD V2, V1: the sum 0x1A9 leaves 0xA9 in V2
      and a carry in VF. */
  lemma AddCarryProgram(m0: Machine)
    requires Loaded(m0, [0x61, 0xFE, 0x62, 0xAB, 0x82, 0x14])
    ensures var r := Run(m0, 3);
      r.v[2] == 0xA9 && r.v[VF] == 1 && r.pc == 0x206
  {
    var rom: seq<u8> := [0x61, 0xFE, 0x62, 0xAB, 0x82, 0x14];
    LoadPairRuns(m0, rom);
    assert m0.memory[0x204] == 0x82 && m0.memory[0x205] == 0x14 by {
      assert rom[4] == 0x82 && rom[5] == 0x14;
    }
    AddCarryStep(Run(m0, 2));
  }

  /** ... then ADD V2, V1 with V1 = 0xFE and V2 = 0xAB. */
  lemma AddCarryStep(m: Machine)
    requires m.Valid() && m.pc == 0x204 && m.v[1] == 0xFE && m.v[2] == 0xAB
    requires m.memory[0x204] == 0x82 && m.memory[0x205] == 0x14
    ensures var r := Cycle(m).0;
      r.v[2] == 0xA9 && r.v[VF] == 1 && r.pc == 0x206
  {
    var w := Decoder.Split(0x8214);
    assert Decoder.Decode(w) == Decoder.Some(Decoder.AddVxVy);
    CycleRuns(m, 0x82, 0x14, Decoder.AddVxVy);
  }

  /** CALL 0x204; (skipped word); RET: the return lands on 0x202. */
  lemma CallRetProgram(m0: Machine)
    requires Loaded(m0, [0x22, 0x04, 0x00, 0x00, 0x00, 0xEE])
    ensures var r := Run(m0, 2);
      r.pc == 0x202 && r.sp == 0
  {
    var rom: seq<u8> := [0x22, 0x04, 0x00, 0x00, 0x00, 0xEE];
    assert m0.memory[0x200] == 0x22 && m0.memory[0x201] == 0x04 by {
      assert rom[0] == 0x22 && rom[1] == 0x04;
    }
    var w0 := Decoder.Split(0x2204);
    assert Decoder.Decode(w0) == Decoder.Some(Decoder.CallNnn);
    CycleRuns(m0, 0x22, 0x04, Decoder.CallNnn);
    var m1 := CallNnn(m0, w0);
    assert Cycle(m0).0 == m1;
    assert m1.memory[0x204] == 0x00 && m1.memory[0x205] == 0xEE by {
      assert rom[4] == 0x00 && rom[5] == 0xEE;
    }
    var w1 := Decoder.Split(0x00EE);
    assert Decoder.Decode(w1) == Decoder.Some(Decoder.Ret);
    CycleRuns(m1, 0x00, 0xEE, Decoder.Ret);
    var m2 := Ret(m1);
    assert Cycle(m1).0 == m2;
    assert Run(m0, 2) == m2;
  }

  /** LD V1, 0xAC; LD V2, 0xDF; SUB V1, V2: 0xAC - 0xDF wraps to 0xCD and,
      since V1 > V2 does not hold, VF = 0. */
  lemma SubBorrowProgram(m0: Machine)
    requires Loaded(m0, [0x61, 0xAC, 0x62, 0xDF, 0x81, 0x25])
    ensures var r := Run(m0, 3);
      r.v[1] == 0xCD && r.v[VF] == 0 && r.pc == 0x206
  {
    var rom: seq<u8> := [0x61, 0xAC, 0x62, 0xDF, 0x81, 0x25];
    LoadPairRuns(m0, rom);
    assert m0.memory[0x204] == 0x81 && m0.memory[0x205] == 0x25 by {
      assert rom[4] == 0x81 && rom[5] == 0x25;
    }
    SubBorrowStep(Run(m0, 2));
  }

  /** ... then SUB V1, V2 with V1 = 0xAC and V2 = 0xDF. */
  lemma SubBorrowStep(m: Machine)
    requires m.Valid() && m.pc == 0x204 && m.v[1] == 0xAC && m.v[2] == 0xDF
    requires m.memory[0x204] == 0x81 && m.memory[0x205] == 0x25
    ensures var r := Cycle(m).0;
      r.v[1] == 0xCD && r.v[VF] == 0 && r.pc == 0x206
  {
    var w := Decoder.Split(0x8125);
    assert Decoder.Decode(w) == Decoder.Some(Decoder.SubVxVy);
    CycleRuns(m, 0x81, 0x25, Decoder.SubVxVy);
  }

  /** LD V1, 0x1A; LD V2, 0x3C; SUBN V2, V1: V2 becomes 0x1A - 0x3C wrapped,
      0xDE, and VF = 1 because V2 > V1 held before. */
  lemma SubnBorrowProgram(m0: Machine)
    requires Loaded(m0, [0x61, 0x1A, 0x62, 0x3C, 0x82, 0x17])
    ensures var r := Run(m0, 3);
      r.v[2] == 0xDE && r.v[VF] == 1 && r.pc == 0x206
  {
    var rom: seq<u8> := [0x61, 0x1A, 0x62, 0x3C, 0x82, 0x17];
    LoadPairRuns(m0, rom);
    assert m0.memory[0x204] == 0x82 && m0.memory[0x205] == 0x17 by {
      assert rom[4] == 0x82 && rom[5] == 0x17;
    }
    SubnBorrowStep(Run(m0, 2));
  }

  /** ... then SUBN V2, V1 with V1 = 0x1A and V2 = 0x3C. */
  lemma SubnBorrowStep(m: Machine)
    requires m.Valid() && m.pc == 0x204 && m.v[1] == 0x1A && m.v[2] == 0x3C
    requires m.memory[0x204] == 0x82 && m.memory[0x205] == 0x17
    ensures var r := Cycle(m).0;
      r.v[2] == 0xDE && r.v[VF] == 1 && r.pc == 0x206
  {
    var w := Decoder.Split(0x8217);
    assert Decoder.Decode(w) == Decoder.Some(Decoder.SubnVxVy);
    CycleRuns(m, 0x82, 0x17, Decoder.SubnVxVy);
  }

  /** LD V1, 0xAD; SHR V1: 0xAD >> 1 = 0x56 and the bit shifted out is 1. */
  lemma ShrProgram(m0: Machine)
    requires Loaded(m0, [0x61, 0xAD, 0x81, 0x26])
    ensures var r := Run(m0, 2);
      r.v[1] == 0x56 && r.v[VF] == 1 && r.pc == 0x204
  {
    var rom: seq<u8> := [0x61, 0xAD, 0x81, 0x26];
    assert m0.memory[0x200] == 0x61 && m0.memory[0x201] == 0xAD by {
      assert rom[0] == 0x61 && rom[1] == 0xAD;
    }
    assert m0.memory[0x202] == 0x81 && m0.memory[0x203] == 0x26 by {
      assert rom[2] == 0x81 && rom[3] == 0x26;
    }
    LoadImmediateStep(m0, 1, 0xAD);
    assert Run(m0, 1) == m0.(v := m0.v[1 := 0xAD], pc := 0x202);
    ShrStep(Run(m0, 1));
  }

  /** ... then SHR V1 with V1 = 0xAD. */
  lemma ShrStep(m: Machine)
    requires m.Valid() && m.pc == 0x202 && m.v[1] == 0xAD
    requires m.memory[0x202] == 0x81 && m.memory[0x203] == 0x26
    ensures var r := Cycle(m).0;
      r.v[1] == 0x56 && r.v[VF] == 1 && r.pc == 0x204
  {
    var w := Decoder.Split(0x8126);
    assert Decoder.Decode(w) == Decoder.Some(Decoder.ShrVxVy);
    CycleRuns(m, 0x81, 0x26, Decoder.ShrVxVy);
  }

  /** LD V1, 0xCA; SHL V1: 0xCA << 1 wraps to 0x94 and the bit shifted out
      is 1. */
  lemma ShlProgram(m0: Machine)
    requires Loaded(m0, [0x61, 0xCA, 0x81, 0x2E])
    ensures var r := Run(m0, 2);
      r.v[1] == 0x94 && r.v[VF] == 1 && r.pc == 0x204
  {
    var rom: seq<u8> := [0x61, 0xCA, 0x81, 0x2E];
    assert m0.memory[0x200] == 0x61 && m0.memory[0x201] == 0xCA by {
      assert rom[0] == 0x61 && rom[1] == 0xCA;
    }
    assert m0.memory[0x202] == 0x81 && m0.memory[0x203] == 0x2E by {
      assert rom[2] == 0x81 && rom[3] == 0x2E;
    }
    LoadImmediateStep(m0, 1, 0xCA);
    assert Run(m0, 1) == m0.(v := m0.v[1 := 0xCA], pc := 0x202);
    ShlStep(Run(m0, 1));
  }

  /** ... then SHL V1 with V1 = 0xCA. */
  lemma ShlStep(m: Machine)
    requires m.Valid() && m.pc == 0x202 && m.v[1] == 0xCA
    requires m.memory[0x202] == 0x81 && m.memory[0x203] == 0x2E
    ensures var r := Cycle(m).0;
      r.v[1] == 0x94 && r.v[VF] == 1 && r.pc == 0x204
  {
    var w := Decoder.Split(0x812E);
    assert Decoder.Decode(w) == Decoder.Some(Decoder.ShlVxVy);
    CycleRuns(m, 0x81, 0x2E, Decoder.ShlVxVy);
  }

  /** LD I, 0x500; LD V5, 0xAE: the set-up of the BCD test program. */
  lemma BcdSetup(m0: Machine)
    requires Loaded(m0, [0xA5, 0x00, 0x65, 0xAE, 0xF5, 0x33])
    ensures var m2 := Run(m0, 2);
      m2.i == 0x500 && m2.v[5] == 0xAE && m2.pc == 0x204 && m2.memory == m0.memory
  {
    var rom: seq<u8> := [0xA5, 0x00, 0x65, 0xAE, 0xF5, 0x33];
    assert m0.memory[0x200] == 0xA5 && m0.memory[0x201] == 0x00 by {
      assert rom[0] == 0xA5 && rom[1] == 0x00;
    }
    assert m0.memory[0x202] == 0x65 && m0.memory[0x203] == 0xAE by {
      assert rom[2] == 0x65 && rom[3] == 0xAE;
    }
    var w0 := Decoder.Split(0xA500);
    assert Decoder.Decode(w0) == Decoder.Some(Decoder.LdINnn);
    CycleRuns(m0, 0xA5, 0x00, Decoder.LdINnn);
    var m1 := m0.(i := 0x500, pc := 0x202);
    assert Run(m0, 1) == m1;
    LoadImmediateStep(m1, 5, 0xAE);
  }

  /** ... then LD B, V5 with V5 = 0xAE and I = 0x500. */
  lemma BcdStep(m: Machine)
    requires m.Valid() && m.i == 0x500 && m.v[5] == 0xAE && m.pc == 0x204
    requires m.memory[0x204] == 0xF5 && m.memory[0x205] == 0x33
    ensures var r := Cycle(m).0;
      r.memory[0x500..0x503] == [1, 7, 4] && r.pc == 0x206
  {
    var w := Decoder.Split(0xF533);
    assert Decoder.Decode(w) == Decoder.Some(Decoder.LdBVx);
    CycleRuns(m, 0xF5, 0x33, Decoder.LdBVx);
    BcdExamples();
  }

  /** LD I, 0x500; LD V5, 0xAE; LD B, V5: memory at 0x500 holds 1, 7, 4. */
  lemma BcdProgram(m0: Machine)
    requires Loaded(m0, [0xA5, 0x00, 0x65, 0xAE, 0xF5, 0x33])
    ensures var r := Run(m0, 3);
      r.memory[0x500..0x503] == [1, 7, 4] && r.pc == 0x206
  {
    var rom: seq<u8> := [0xA5, 0x00, 0x65, 0xAE, 0xF5, 0x33];
    BcdSetup(m0);
    assert m0.memory[0x204] == 0xF5 && m0.memory[0x205] == 0x33 by {
      assert rom[4] == 0xF5 && rom[5] == 0x33;
    }
    BcdStep(Run(m0, 2));
  }

  /** LD V3, [I] with I = 0x200 and the words A200 F365 at 0x200. */
  lemma LoadStep(m: Machine)
    requires m.Valid() && m.i == 0x200 && m.pc == 0x202
    requires m.memory[0x200] == 0xA2 && m.memory[0x201] == 0x00
    requires m.memory[0x202] == 0xF3 && m.memory[0x203] == 0x65
    ensures var r := Cycle(m).0;
      r.v[..4] == [0xA2, 0x00, 0xF3, 0x65] && r.pc == 0x204
  {
    var w := Decoder.Split(0xF365);
    assert Decoder.Decode(w) == Decoder.Some(Decoder.LdVxI);
    CycleRuns(m, 0xF3, 0x65, Decoder.LdVxI);
    var r := LdVxI(m, w);
    assert r.v[..4] == m.memory[0x200..0x204];
  }

  /** LD I, 0x200; LD V3, [I]: the registers V0..V3 receive the program's
      own four bytes. */
  lemma LoadProgram(m0: Machine)
    requires Loaded(m0, [0xA2, 0x00, 0xF3, 0x65])
    ensures var r := Run(m0, 2);
      r.v[..4] == [0xA2, 0x00, 0xF3, 0x65] && r.pc == 0x204
  {
    var rom: seq<u8> := [0xA2, 0x00, 0xF3, 0x65];
    assert m0.memory[0x200] == 0xA2 && m0.memory[0x201] == 0x00 by {
      assert rom[0] == 0xA2 && rom[1] == 0x00;
    }
    assert m0.memory[0x202] == 0xF3 && m0.memory[0x203] == 0x65 by {
      assert rom[2] == 0xF3 && rom[3] == 0x65;
    }
    var w0 := Decoder.Split(0xA200);
    assert Decoder.Decode(w0) == Decoder.Some(Decoder.LdINnn);
    CycleRuns(m0, 0xA2, 0x00, Decoder.LdINnn);
    var m1 := LdINnn(m0, w0);
    assert Run(m0, 1) == m1;
    LoadStep(m1);
  }
}
