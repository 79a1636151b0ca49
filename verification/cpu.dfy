/** The CHIP-8 virtual CPU as values: the machine state, and the effect of
    one instruction, one CPU step, one timer tick and a ROM load on it
    (chip8_core/src/lib.rs). The class `Emulator.Emu` updates the same state
    in place and is proved to agree with these functions. Where the
    interpreter would panic, these functions return a `Fault` instead and the
    state is left as it was. */
module Cpu {
  import opened Words
  import opened Opcode
  import opened Sprite

  const RamSize: nat := 4096
  const RegisterCount: nat := 16
  const StackSize: nat := 16
  const NumKeys: nat := 16
  const StartAddr: nat := 0x200
  const FontsetSize: nat := 80

  /** Glyphs 0..F, five rows each, loaded at address 0. */
  const Fontset: seq<u8> := [
    0xF0, 0x90, 0x90, 0x90, 0xF0, // 0
    0x20, 0x60, 0x20, 0x20, 0x70, // 1
    0xF0, 0x10, 0xF0, 0x80, 0xF0, // 2
    0xF0, 0x10, 0xF0, 0x10, 0xF0, // 3
    0x90, 0x90, 0xF0, 0x10, 0x10, // 4
    0xF0, 0x80, 0xF0, 0x10, 0xF0, // 5
    0xF0, 0x80, 0xF0, 0x90, 0xF0, // 6
    0xF0, 0x10, 0x20, 0x40, 0x40, // 7
    0xF0, 0x90, 0xF0, 0x90, 0xF0, // 8
    0xF0, 0x90, 0xF0, 0x10, 0xF0, // 9
    0xF0, 0x90, 0xF0, 0x90, 0x90, // A
    0xE0, 0x90, 0xE0, 0x90, 0xE0, // B
    0xF0, 0x80, 0x80, 0x80, 0xF0, // C
    0xE0, 0x90, 0x90, 0x90, 0xE0, // D
    0xF0, 0x80, 0xF0, 0x80, 0xF0, // E
    0xF0, 0x80, 0xF0, 0x80, 0x80  // F
  ]

  /** What the interpreter would panic on. */
  datatype Fault =
    | PcOutOfRange        // fetch past the end of RAM
    | StackOverflow       // CALL with 16 return addresses saved (or RET with more)
    | StackUnderflow      // RET with an empty stack
    | KeyOutOfRange       // Ex9E / ExA1 with Vx > 0xF
    | MemoryOutOfRange    // Dxyn, Fx33, Fx55, Fx65 reaching past RAM
    | Unimplemented(op: u16)
    | RomTooLarge

  datatype Result<T> = Ok(value: T) | Err(fault: Fault)

  /** The fields of `Emu`. `v` is the register file V0..VF, `i` the index
      register, `sp` the stack pointer. */
  datatype Machine = Machine(
    pc: u16,
    ram: seq<u8>,
    screen: seq<bool>,
    keys: seq<bool>,
    v: seq<u8>,
    i: u16,
    sp: u16,
    stack: seq<u16>,
    delay: u8,
    sound: u8,
    paused: bool)
  {
    /** The fixed array sizes of the source. */
    predicate Valid()
    {
      |ram| == RamSize && |screen| == ScreenSize && |keys| == NumKeys &&
      |v| == RegisterCount && |stack| == StackSize
    }
  }

  /** The state `Emu::new` builds and `Emu::reset` restores (apart from
      the pause flag, which reset keeps). */
  function Initial(): (m: Machine)
    ensures m.Valid()
  {
    Machine(
      StartAddr as u16,
      seq(RamSize, a requires 0 <= a < RamSize => if a < FontsetSize then Fontset[a] else 0),
      seq(ScreenSize, _ => false),
      seq(NumKeys, _ => false),
      seq(RegisterCount, _ => 0),
      0, 0,
      seq(StackSize, _ => 0),
      0, 0, false)
  }

  /** The big-endian opcode at `pc`. */
  function FetchWord(ram: seq<u8>, pc: u16): (op: u16)
    requires |ram| == RamSize && pc as int + 1 < RamSize
    ensures op as int / 0x100 == ram[pc] as int && op as int % 0x100 == ram[pc as int + 1] as int
  {
    (ram[pc] as int * 0x100 + ram[pc as int + 1] as int) as u16
  }

  /** `pc += 2` when `taken`: the conditional skip of the next instruction. */
  function SkipIf(s: Machine, taken: bool): Machine
    requires s.pc as int + 2 < 0x1_0000
  {
    if taken then s.(pc := s.pc + 2) else s
  }

  /** Fx33: the hundreds, tens and ones digits of a byte. */
  function BcdDigits(b: u8): (d: (u8, u8, u8))
    ensures d.0 < 10 && d.1 < 10 && d.2 < 10
    ensures 100 * d.0 as int + 10 * d.1 as int + d.2 as int == b as int
  {
    ((b as int / 100) as u8, ((b as int / 10) % 10) as u8, (b as int % 10) as u8)
  }

  /** Fx0A: the lowest pressed key at or after index `from`. */
  function FirstPressedFrom(keys: seq<bool>, from: nat): (r: Option<nat>)
    requires from <= |keys|
    ensures r.Some? ==> from <= r.value < |keys| && keys[r.value] &&
                        forall j :: from <= j < r.value ==> !keys[j]
    ensures r.None? ==> forall j :: from <= j < |keys| ==> !keys[j]
    decreases |keys| - from
  {
    if from == |keys| then None
    else if keys[from] then Some(from)
    else FirstPressedFrom(keys, from + 1)
  }

  /** Fx0A: the lowest pressed key, if any. */
  function FirstPressed(keys: seq<bool>): Option<nat>
  {
    FirstPressedFrom(keys, 0)
  }

  /** Dxyn: the n sprite rows at I. */
  function SpriteRows(s: Machine, n: Nibble): (rows: seq<u8>)
    requires s.Valid() && (n == 0 || s.i as int + n <= RamSize)
    ensures |rows| == n && forall j :: 0 <= j < n ==> rows[j] == s.ram[s.i as int + j]
  {
    if n == 0 then [] else s.ram[s.i .. s.i as int + n]
  }

  /** The effect of one decoded instruction (one arm of `execute`) on a
      machine whose PC already points past it; on success, the new state and
      whether the framebuffer was modified. `rnd` is the random byte Cxnn
      draws. 00E0 reports its change to the framebuffer, which the source
      does not (module `CpuProps`, `ClearScreenAsWritten`). */
  function Exec(s: Machine, ins: Instr, rnd: u8): Result<(Machine, bool)>
    requires s.Valid() && 2 <= s.pc as int <= RamSize
  {
    if IsControl(ins) then ExecControl(s, ins)
    else if IsSkip(ins) then ExecSkip(s, ins)
    else if IsAssign(ins) then ExecAssign(s, ins, rnd)
    else if IsFlagged(ins) then ExecFlagged(s, ins)
    else if IsMemory(ins) then ExecMemory(s, ins)
    else ExecMisc(s, ins)
  }

  /** 0000, 00E0, 00EE, 1nnn, 2nnn and Bnnn. */
  function ExecControl(s: Machine, ins: Instr): Result<(Machine, bool)>
    requires s.Valid() && IsControl(ins)
  {
    match ins
    case Nop => Ok((s, false))
    case ClearScreen => Ok((s.(screen := seq(ScreenSize, _ => false)), true))
    case Return =>
      if s.sp == 0 then Err(StackUnderflow)
      else if s.sp as int > StackSize then Err(StackOverflow)
      else Ok((s.(sp := s.sp - 1, pc := s.stack[s.sp - 1]), false))
    case Jump(nnn) => Ok((s.(pc := nnn as u16), false))
    case Call(nnn) =>
      if s.sp as int >= StackSize then Err(StackOverflow)
      else Ok((s.(stack := s.stack[s.sp := s.pc], sp := s.sp + 1, pc := nnn as u16), false))
    case JumpOffset(nnn) => Ok((s.(pc := (s.v[0] as int + nnn) as u16), false))
  }

  /** 3xnn, 4xnn, 5xyN, 9xy0, Ex9E and ExA1. */
  function ExecSkip(s: Machine, ins: Instr): Result<(Machine, bool)>
    requires s.Valid() && s.pc as int <= RamSize && IsSkip(ins)
  {
    var v := s.v;
    match ins
    case SkipEqImm(x, nn) => Ok((SkipIf(s, v[x] == nn), false))
    case SkipNeImm(x, nn) => Ok((SkipIf(s, v[x] != nn), false))
    case SkipEqReg(x, y) => Ok((SkipIf(s, v[x] == v[y]), false))
    case SkipNeReg(x, y) => Ok((SkipIf(s, v[x] != v[y]), false))
    case SkipKey(x) =>
      if v[x] as int >= NumKeys then Err(KeyOutOfRange)
      else Ok((SkipIf(s, s.keys[v[x]]), false))
    case SkipNotKey(x) =>
      if v[x] as int >= NumKeys then Err(KeyOutOfRange)
      else Ok((SkipIf(s, !s.keys[v[x]]), false))
  }

  /** 6xnn, 7xnn, 8xy0..8xy3 and Cxnn. */
  function ExecAssign(s: Machine, ins: Instr, rnd: u8): Result<(Machine, bool)>
    requires s.Valid() && IsAssign(ins)
  {
    var v := s.v;
    match ins
    case LoadImm(x, nn) => Ok((s.(v := v[x := nn]), false))
    case AddImm(x, nn) => Ok((s.(v := v[x := WrappingAdd(v[x], nn)]), false))
    case Move(x, y) => Ok((s.(v := v[x := v[y]]), false))
    case Or(x, y) => Ok((s.(v := v[x := BitOr(v[x], v[y])]), false))
    case And(x, y) => Ok((s.(v := v[x := BitAnd(v[x], v[y])]), false))
    case Xor(x, y) => Ok((s.(v := v[x := BitXor(v[x], v[y])]), false))
    case Random(x, nn) => Ok((s.(v := v[x := BitAnd(rnd, nn)]), false))
  }

  /** 8xy4..8xyE: Vx first, then VF. */
  function ExecFlagged(s: Machine, ins: Instr): Result<(Machine, bool)>
    requires s.Valid() && IsFlagged(ins)
  {
    var v := s.v;
    match ins
    case AddReg(x, y) =>
      var (r, carry) := OverflowingAdd(v[x], v[y]);
      Ok((s.(v := v[x := r][0xF := if carry then 1 else 0]), false))
    case SubReg(x, y) =>
      var (r, borrow) := OverflowingSub(v[x], v[y]);
      Ok((s.(v := v[x := r][0xF := if borrow then 0 else 1]), false))
    case ShiftRight(x, _) =>
      Ok((s.(v := v[x := ShiftRight1(v[x])][0xF := Lsb(v[x])]), false))
    case SubRev(x, y) =>
      var (r, borrow) := OverflowingSub(v[y], v[x]);
      Ok((s.(v := v[x := r][0xF := if borrow then 0 else 1]), false))
    case ShiftLeft(x, _) =>
      Ok((s.(v := v[x := ShiftLeft1(v[x])][0xF := Msb(v[x])]), false))
  }

  /** Dxyn, Fx33, Fx55 and Fx65. */
  function ExecMemory(s: Machine, ins: Instr): Result<(Machine, bool)>
    requires s.Valid() && IsMemory(ins)
  {
    var v := s.v;
    match ins
    case Draw(x, y, n) =>
      if n > 0 && s.i as int + n > RamSize then Err(MemoryOutOfRange)
      else
        var (screen, flipped) := DrawSprite(s.screen, SpriteRows(s, n), v[x], v[y]);
        Ok((s.(screen := screen, v := v[0xF := if flipped then 1 else 0]), true))
    case Bcd(x) =>
      if s.i as int + 2 >= RamSize then Err(MemoryOutOfRange)
      else
        var (h, t, o) := BcdDigits(v[x]);
        var a := s.i as int;
        Ok((s.(ram := s.ram[a := h][a + 1 := t][a + 2 := o]), false))
    case StoreRegs(x) =>
      if s.i as int + x >= RamSize then Err(MemoryOutOfRange)
      else
        var a := s.i as int;
        Ok((s.(ram := s.ram[..a] + v[..x + 1] + s.ram[a + x + 1..]), false))
    case LoadRegs(x) =>
      if s.i as int + x >= RamSize then Err(MemoryOutOfRange)
      else
        var a := s.i as int;
        Ok((s.(v := s.ram[a..a + x + 1] + v[x + 1..]), false))
  }

  /** Annn, Fx07, Fx0A, Fx15, Fx18, Fx1E and Fx29. */
  function ExecMisc(s: Machine, ins: Instr): Result<(Machine, bool)>
    requires s.Valid() && 2 <= s.pc
    requires !IsControl(ins) && !IsSkip(ins) && !IsAssign(ins) && !IsFlagged(ins) && !IsMemory(ins)
  {
    var v := s.v;
    match ins
    case LoadIndex(nnn) => Ok((s.(i := nnn as u16), false))
    case GetDelay(x) => Ok((s.(v := v[x := s.delay]), false))
    case WaitKey(x) =>
      (match FirstPressed(s.keys)
       case Some(k) => Ok((s.(v := v[x := k as u8]), false))
       case None => Ok((s.(pc := s.pc - 2), false)))
    case SetDelay(x) => Ok((s.(delay := v[x]), false))
    case SetSound(x) => Ok((s.(sound := v[x]), false))
    case AddIndex(x) => Ok((s.(i := WrappingAdd16(s.i, v[x] as u16)), false))
    case FontChar(x) => Ok((s.(i := (v[x] as int * 5) as u16), false))
  }

  /** Only Cxnn depends on the random byte. */
  lemma ExecIgnoresRandom(s: Machine, ins: Instr, rnd: u8)
    requires s.Valid() && 2 <= s.pc as int <= RamSize && !ins.Random?
    ensures Exec(s, ins, rnd) == Exec(s, ins, 0)
  {
  }

  /** `tick`: unless paused, fetch the opcode at PC, advance PC by 2, decode
      and execute; the result says whether the framebuffer was modified. */
  function Step(s: Machine, rnd: u8): Result<(Machine, bool)>
    requires s.Valid()
  {
    if s.paused then Ok((s, false))
    else if s.pc as int + 1 >= RamSize then Err(PcOutOfRange)
    else
      var op := FetchWord(s.ram, s.pc);
      match Decode(op)
      case None => Err(Unimplemented(op))
      case Some(ins) => Exec(s.(pc := s.pc + 2), ins, rnd)
  }

  /** `tick_timers`: unless paused, count both timers down towards zero;
      the result says whether the sound timer ran out on this tick. */
  function TimerTick(s: Machine): (Machine, bool)
  {
    if s.paused then (s, false)
    else
      var delay := if s.delay > 0 then s.delay - 1 else 0;
      var sound := if s.sound > 0 then s.sound - 1 else 0;
      (s.(delay := delay, sound := sound), s.sound == 1)
  }

  /** `load`: the ROM bytes copied to RAM at 0x200. */
  function LoadRom(s: Machine, data: seq<u8>): Result<Machine>
    requires s.Valid()
  {
    if StartAddr + |data| > RamSize then Err(RomTooLarge)
    else Ok(s.(ram := s.ram[..StartAddr] + data + s.ram[StartAddr + |data|..]))
  }
}
