/** `execute` and `run_cycle` on the in-place interpreter: the dispatch is a
    total match over the instruction kinds instead of a table of handlers, and
    every fatal condition is returned as a failed outcome with the state left
    as it was. */
module Dispatch {
  import opened Words
  import opened Chip8
  import Decoder
  import S = Semantics
  import C = Cpu
  import H = Handlers

  /** `execute`: report a kind without a handler, or a handler's own fatal
      condition, before anything changes; otherwise run the handler. */
  method Execute(cpu: C.Cpu, t: Decoder.InstructionType, ins: Decoder.Instruction)
    returns (outcome: Outcome)
    requires cpu.Valid() && ins.InRange()
    modifies cpu, cpu.v, cpu.memory, cpu.stack, cpu.display
    ensures cpu.Valid() && (cpu.Abs(), outcome) == S.Execute(old(cpu.Abs()), t, ins)
  {
    var fault := S.Check(t, ins, cpu.pc, cpu.sp, cpu.stack[cpu.sp], cpu.i);
    if fault.Some? {
      return Failed(fault.value);
    }
    match t {
      case Ret => H.Ret(cpu);
      case Jmp => H.Jmp(cpu, ins);
      case CallNnn => H.CallNnn(cpu, ins);
      case SeVxKk => H.SeVxKk(cpu, ins);
      case SneVxKk => H.SneVxKk(cpu, ins);
      case SeVxVy => H.SeVxVy(cpu, ins);
      case LdVxKk => H.LdVxKk(cpu, ins);
      case AddVxKk => H.AddVxKk(cpu, ins);
      case LdVxVy => H.LdVxVy(cpu, ins);
      case OrVxVy => H.OrVxVy(cpu, ins);
      case AndVxVy => H.AndVxVy(cpu, ins);
      case XorVxVy => H.XorVxVy(cpu, ins);
      case AddVxVy => H.AddVxVy(cpu, ins);
      case SubVxVy => H.SubVxVy(cpu, ins);
      case ShrVxVy => H.ShrVxVy(cpu, ins);
      case SubnVxVy => H.SubnVxVy(cpu, ins);
      case ShlVxVy => H.ShlVxVy(cpu, ins);
      case SneVxVy => H.SneVxVy(cpu, ins);
      case LdINnn => H.LdINnn(cpu, ins);
      case DrwVxVyN => H.DrwVxVyN(cpu, ins);
      case LdIVx => H.LdIVx(cpu, ins);
      case LdVxI => H.LdVxI(cpu, ins);
      case LdBVx => H.LdBVx(cpu, ins);
      case _ => assert false;
    }
    outcome := Executed;
  }

  /** `run_cycle`: fetch, decode, execute. A word outside memory or one that
      decodes to nothing is reported and nothing changes. */
  method RunCycle(cpu: C.Cpu) returns (outcome: Outcome)
    requires cpu.Valid()
    modifies cpu, cpu.v, cpu.memory, cpu.stack, cpu.display
    ensures cpu.Valid() && (cpu.Abs(), outcome) == S.Cycle(old(cpu.Abs()))
  {
    var fetched := cpu.Fetch();
    if fetched.Err? {
      return Failed(fetched.fault);
    }
    var ins := fetched.value;
    var decoded := Decoder.Decode(ins);
    if decoded.None? {
      return Failed(DecodeFailure(ins.raw, cpu.pc));
    }
    outcome := Execute(cpu, decoded.value, ins);
  }
}
