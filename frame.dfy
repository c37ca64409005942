/** The frame handed to the renderer: a copy of the display and the redraw
    flag, which the handoff consumes. */
module Frame {
  import opened Chip8
  import C = Cpu

  datatype State = State(drawFlag: bool, display: Grid)

  /** The handoff on values: the frame carries the flag as it was and the
      display as it is, and the flag left behind is always false. */
  function Snapshot(drawFlag: bool, display: Grid): (r: (State, bool))
    ensures r.0.drawFlag == drawFlag && r.0.display == display
    ensures !r.1
  {
    (State(drawFlag, display), if drawFlag then false else drawFlag)
  }

  /** Two handoffs in a row: the second never asks for a redraw, so each
      raised flag is seen exactly once. */
  lemma SnapshotTwice(drawFlag: bool, display: Grid)
    ensures var (first, left) := Snapshot(drawFlag, display);
      first.drawFlag == drawFlag && !Snapshot(left, display).0.drawFlag
  {
  }

  /** `State::new` on the interpreter: copy the display, read the flag, then
      clear it when set. Nothing else changes. */
  method New(cpu: C.Cpu) returns (s: State)
    requires cpu.Valid()
    modifies cpu
    ensures cpu.Valid()
    ensures (s, cpu.drawFlag) == Snapshot(old(cpu.drawFlag), old(cpu.Grid()))
    ensures cpu.Abs() == old(cpu.Abs()).(drawFlag := false)
  {
    s := State(cpu.drawFlag, cpu.Grid());
    if cpu.drawFlag {
      cpu.drawFlag := false;
    }
  }

  /** Two handoffs without a cycle in between: the second reports no redraw
      and the same display. */
  method NewTwice(cpu: C.Cpu) returns (first: State, second: State)
    requires cpu.Valid()
    modifies cpu
    ensures first.drawFlag == old(cpu.drawFlag) && !second.drawFlag
    ensures first.display == second.display == old(cpu.Grid())
  {
    first := New(cpu);
    second := New(cpu);
  }
}
