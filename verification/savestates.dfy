/** Save states of the desktop front end (desktop/src/savestates.rs): a copy
    of nine of the emulator's fields, taken and put back wholesale. The
    pressed keys and the pause flag are not part of a save state. */
module SaveStates {
  import opened Words
  import opened Sprite
  import opened Cpu
  import opened Emulator

  /** `SaveState`: PC, RAM, V0..VF, I, SP, screen, stack and both timers. */
  datatype SaveState = SaveState(
    pc: u16,
    ram: seq<u8>,
    registers: seq<u8>,
    i: u16,
    sp: u16,
    screen: seq<bool>,
    stack: seq<u16>,
    delay: u8,
    sound: u8)
  {
    /** The fixed array sizes of the source. */
    predicate Valid()
    {
      |ram| == RamSize && |registers| == RegisterCount && |screen| == ScreenSize &&
      |stack| == StackSize
    }
  }

  /** `SaveState::default`: everything zero or false, PC included. */
  function Default(): (save: SaveState)
    ensures save.Valid()
    ensures save.pc == 0 && save.sp == 0 && save.i == 0
    ensures forall a :: 0 <= a < RamSize ==> save.ram[a] == 0
    ensures forall p :: 0 <= p < ScreenSize ==> !save.screen[p]
    ensures forall r :: 0 <= r < RegisterCount ==> save.registers[r] == 0
    ensures forall d :: 0 <= d < StackSize ==> save.stack[d] == 0
    ensures save.delay == 0 && save.sound == 0
  {
    SaveState(0, seq(RamSize, _ => 0), seq(RegisterCount, _ => 0), 0, 0,
              seq(ScreenSize, _ => false), seq(StackSize, _ => 0), 0, 0)
  }

  /** `make_save` on a machine state. */
  function Snapshot(m: Machine): (save: SaveState)
    requires m.Valid()
    ensures save.Valid()
  {
    SaveState(m.pc, m.ram, m.v, m.i, m.sp, m.screen, m.stack, m.delay, m.sound)
  }

  /** `load_save` on a machine state: the nine saved fields overwritten. */
  function Restore(save: SaveState, m: Machine): (r: Machine)
    requires save.Valid() && m.Valid()
    ensures r.Valid()
  {
    m.(pc := save.pc, ram := save.ram, v := save.registers, i := save.i, sp := save.sp,
       screen := save.screen, stack := save.stack, delay := save.delay, sound := save.sound)
  }

  /** `make_save`: a copy of the emulator's nine saved fields. */
  function MakeSave(e: Emu): (save: SaveState)
    reads e, e.ram, e.screen, e.pressedKeys, e.registers, e.stack
    requires e.Valid()
    ensures save.Valid() && save == Snapshot(e.View())
  {
    SaveState(e.pc, e.ram[..], e.registers[..], e.indexRegister, e.stackPointer,
              e.screen[..], e.stack[..], e.delayTimer, e.soundTimer)
  }

  /** `load_save`: copy the nine saved fields back into the emulator; the
      pressed keys and the pause flag stay as they are. */
  method LoadSave(save: SaveState, e: Emu)
    requires save.Valid() && e.Valid()
    modifies e, e.ram, e.screen, e.registers, e.stack
    ensures e.Valid() && e.View() == Restore(save, old(e.View()))
  {
    e.pc := save.pc;
    forall a | 0 <= a < RamSize {
      e.ram[a] := save.ram[a];
    }
    forall r | 0 <= r < RegisterCount {
      e.registers[r] := save.registers[r];
    }
    e.indexRegister := save.i;
    forall p | 0 <= p < ScreenSize {
      e.screen[p] := save.screen[p];
    }
    e.stackPointer := save.sp;
    forall d | 0 <= d < StackSize {
      e.stack[d] := save.stack[d];
    }
    e.delayTimer := save.delay;
    e.soundTimer := save.sound;
    assert e.ram[..] == save.ram && e.registers[..] == save.registers;
    assert e.screen[..] == save.screen && e.stack[..] == save.stack;
  }

  /** A save taken right after loading `save` is `save` again. */
  lemma SnapshotOfRestore(save: SaveState, m: Machine)
    requires save.Valid() && m.Valid()
    ensures Snapshot(Restore(save, m)) == save
  {
  }

  /** Loading a save overwrites exactly the saved fields: the result depends
      on the machine only through its keys and pause flag, which it keeps. */
  lemma RestoreOverwrites(save: SaveState, m1: Machine, m2: Machine)
    requires save.Valid() && m1.Valid() && m2.Valid()
    ensures Restore(save, m1).keys == m1.keys && Restore(save, m1).paused == m1.paused
    ensures Restore(save, m1) == Restore(save, m2) <==> (m1.keys == m2.keys && m1.paused == m2.paused)
  {
  }

  /** Rewinding: saving at `m`, running to any `later` state with the same
      keys and pause flag, and loading the save gives back `m` exactly. */
  lemma RestoreSnapshot(m: Machine, later: Machine)
    requires m.Valid() && later.Valid() && later.keys == m.keys && later.paused == m.paused
    ensures Restore(Snapshot(m), later) == m
  {
  }

  /** Loading the default save does not give the state of a reset: PC is 0
      rather than 0x200, and the font is gone from RAM. */
  lemma DefaultIsNotInitial(m: Machine)
    requires m.Valid()
    ensures Restore(Default(), m).pc == 0 != Initial().pc
    ensures Restore(Default(), m).ram[FontsetSize - 1] == 0 != Initial().ram[FontsetSize - 1]
  {
    assert Initial().ram[FontsetSize - 1] == Fontset[FontsetSize - 1] == 0x80;
  }
}
