/** `Emu`, the interpreter object of chip8_core/src/lib.rs: fixed-size
    buffers updated in place by its methods. Every method is proved to leave
    the object in the state the matching function of module `Cpu` computes
    from the state it started in. */
module Emulator {
  import opened Words
  import opened Opcode
  import opened Sprite
  import opened Cpu

  /** A method outcome `r` and the state change `before` to `after` are the
      ones the specification `spec` prescribes; a fault changes nothing. */
  predicate Agrees(spec: Result<(Machine, bool)>, r: Result<bool>, before: Machine, after: Machine)
  {
    match spec
    case Ok((m, modified)) => r == Ok(modified) && after == m
    case Err(f) => r == Err(f) && after == before
  }

  class Emu {
    var pc: u16
    const ram: array<u8>
    const screen: array<bool>
    const pressedKeys: array<bool>
    const registers: array<u8>
    var indexRegister: u16
    var stackPointer: u16
    const stack: array<u16>
    var delayTimer: u8
    var soundTimer: u8
    var isPaused: bool

    /** The buffers have the source's sizes and two buffers of the same
        element type are distinct. */
    ghost predicate Valid()
      reads this
    {
      ram.Length == RamSize && screen.Length == ScreenSize &&
      pressedKeys.Length == NumKeys && registers.Length == RegisterCount &&
      stack.Length == StackSize &&
      ram != registers && screen != pressedKeys
    }

    /** The current state as a value. */
    function View(): (m: Machine)
      reads this, ram, screen, pressedKeys, registers, stack
      requires Valid()
      ensures m.Valid()
    {
      Machine(pc, ram[..], screen[..], pressedKeys[..], registers[..],
              indexRegister, stackPointer, stack[..], delayTimer, soundTimer, isPaused)
    }

    /** `Emu::new`: everything zero or false, PC at 0x200, the font at
        address 0. */
    constructor ()
      ensures Valid() && View() == Initial()
      ensures fresh(ram) && fresh(screen) && fresh(pressedKeys) && fresh(registers) && fresh(stack)
    {
      pc := StartAddr as u16;
      ram := new u8[RamSize](_ => 0);
      screen := new bool[ScreenSize](_ => false);
      pressedKeys := new bool[NumKeys](_ => false);
      registers := new u8[RegisterCount](_ => 0);
      indexRegister := 0;
      stackPointer := 0;
      stack := new u16[StackSize](_ => 0);
      delayTimer := 0;
      soundTimer := 0;
      isPaused := false;
      new;
      forall a | 0 <= a < FontsetSize {
        ram[a] := Fontset[a];
      }
    }

    /** `reset`: the state of a new emulator, except that the pause flag is
        kept; no buffer is reallocated. */
    method Reset()
      requires Valid()
      modifies this, ram, screen, pressedKeys, registers, stack
      ensures Valid() && View() == Initial().(paused := old(isPaused))
    {
      pc := StartAddr as u16;
      forall a | 0 <= a < RamSize {
        ram[a] := 0;
      }
      forall p | 0 <= p < ScreenSize {
        screen[p] := false;
      }
      forall r | 0 <= r < RegisterCount {
        registers[r] := 0;
      }
      indexRegister := 0;
      stackPointer := 0;
      forall d | 0 <= d < StackSize {
        stack[d] := 0;
      }
      forall k | 0 <= k < NumKeys {
        pressedKeys[k] := false;
      }
      delayTimer := 0;
      soundTimer := 0;
      forall a | 0 <= a < FontsetSize {
        ram[a] := Fontset[a];
      }
    }

    /** `get_display`: the 64x32 row-major screen. */
    function GetDisplay(): (d: seq<bool>)
      reads this, screen
      requires Valid()
      ensures |d| == ScreenWidth * ScreenHeight
      ensures forall p :: 0 <= p < |d| ==> d[p] == screen[p]
    {
      screen[..]
    }

    /** `keypress`: record the state of key `id`; nothing else changes. */
    method Keypress(id: nat, pressed: bool)
      requires Valid() && id < NumKeys
      modifies pressedKeys
      ensures Valid() && View() == old(View()).(keys := old(pressedKeys[..])[id := pressed])
    {
      pressedKeys[id] := pressed;
    }

    /** `load`: copy a ROM to 0x200, or refuse one that does not fit. */
    method Load(data: seq<u8>) returns (r: Result<()>)
      requires Valid()
      modifies ram
      ensures Valid()
      ensures match LoadRom(old(View()), data)
              case Ok(m) => r == Ok(()) && View() == m
              case Err(f) => r == Err(f) && View() == old(View())
    {
      if StartAddr + |data| > RamSize {
        return Err(RomTooLarge);
      }
      forall j | 0 <= j < |data| {
        ram[StartAddr + j] := data[j];
      }
      assert ram[..] == old(ram[..StartAddr]) + data + old(ram[StartAddr + |data|..]);
      r := Ok(());
    }

    /** `push`: save a return address on top of the stack. */
    method Push(val: u16)
      requires Valid() && stackPointer as int < StackSize
      modifies this, stack
      ensures Valid()
      ensures View() == old(View()).(stack := old(stack[..])[old(stackPointer) := val],
                                     sp := old(stackPointer) + 1)
    {
      stack[stackPointer] := val;
      stackPointer := stackPointer + 1;
    }

    /** `pop`: remove and return the top of the stack. */
    method Pop() returns (val: u16)
      requires Valid() && 0 < stackPointer as int <= StackSize
      modifies this
      ensures Valid()
      ensures val == old(stack[stackPointer - 1])
      ensures View() == old(View()).(sp := old(stackPointer) - 1)
    {
      stackPointer := stackPointer - 1;
      val := stack[stackPointer];
    }

    /** `fetch`: the big-endian opcode at PC, PC advanced by 2. */
    method Fetch() returns (r: Result<u16>)
      requires Valid()
      modifies this
      ensures Valid()
      ensures if old(pc) as int + 1 < RamSize
              then r == Ok(FetchWord(ram[..], old(pc))) && View() == old(View()).(pc := old(pc) + 2)
              else r == Err(PcOutOfRange) && View() == old(View())
    {
      if pc as int + 1 >= RamSize {
        return Err(PcOutOfRange);
      }
      var higher := ram[pc] as int;
      var lower := ram[pc as int + 1] as int;
      var opcode := (higher * 0x100 + lower) as u16;
      pc := pc + 2;
      r := Ok(opcode);
    }

    /** `tick`: one fetch-decode-execute cycle unless paused; `rnd` is the
        byte Cxnn would draw. A fault leaves the state as it was. */
    method Tick(rnd: u8) returns (r: Result<bool>)
      requires Valid()
      modifies this, ram, screen, registers, stack
      ensures Valid()
      ensures Agrees(Step(old(View()), rnd), r, old(View()), View())
    {
      if isPaused {
        return Ok(false);
      }
      var start := pc;
      var fetched := Fetch();
      if fetched.Err? {
        return Err(fetched.fault);
      }
      var op := fetched.value;
      var decoded := Decode(op);
      if decoded.None? {
        pc := start;
        return Err(Unimplemented(op));
      }
      r := Execute(decoded.value, rnd);
      if r.Err? {
        pc := start;
      }
    }

    /** `execute`: one instruction, with PC already past it. Each group of
        arms is a method of its own below. */
    method Execute(ins: Instr, rnd: u8) returns (r: Result<bool>)
      requires Valid() && 2 <= pc as int <= RamSize
      modifies this, ram, screen, registers, stack
      ensures Valid()
      ensures Agrees(Exec(old(View()), ins, rnd), r, old(View()), View())
    {
      if IsControl(ins) {
        r := ExecuteControl(ins);
      } else if IsSkip(ins) {
        r := ExecuteSkip(ins);
      } else if IsAssign(ins) {
        r := ExecuteAssign(ins, rnd);
      } else if IsFlagged(ins) {
        r := ExecuteFlagged(ins);
      } else if IsMemory(ins) {
        r := ExecuteMemory(ins);
      } else {
        r := ExecuteMisc(ins);
      }
    }

    /** 0000 (which does nothing), 00E0, 00EE, 1nnn, 2nnn and Bnnn. */
    method ExecuteControl(ins: Instr) returns (r: Result<bool>)
      requires Valid() && 2 <= pc as int <= RamSize && IsControl(ins)
      modifies this, screen, stack
      ensures Valid()
      ensures Agrees(ExecControl(old(View()), ins), r, old(View()), View())
    {
      r := Ok(false);
      match ins
      case Nop =>
      case ClearScreen =>
        forall p | 0 <= p < ScreenSize {
          screen[p] := false;
        }
        r := Ok(true);
      case Return =>
        if stackPointer == 0 {
          return Err(StackUnderflow);
        }
        if stackPointer as int > StackSize {
          return Err(StackOverflow);
        }
        var retAddr := Pop();
        pc := retAddr;
      case Jump(nnn) =>
        pc := nnn as u16;
      case Call(nnn) =>
        if stackPointer as int >= StackSize {
          return Err(StackOverflow);
        }
        Push(pc);
        pc := nnn as u16;
      case JumpOffset(nnn) =>
        pc := (registers[0] as int + nnn) as u16;
    }

    /** 3xnn, 4xnn, 5xyN, 9xy0, Ex9E and ExA1. */
    method ExecuteSkip(ins: Instr) returns (r: Result<bool>)
      requires Valid() && 2 <= pc as int <= RamSize && IsSkip(ins)
      modifies this
      ensures Valid()
      ensures Agrees(ExecSkip(old(View()), ins), r, old(View()), View())
    {
      r := Ok(false);
      match ins
      case SkipEqImm(x, nn) =>
        if registers[x] == nn {
          pc := pc + 2;
        }
      case SkipNeImm(x, nn) =>
        if registers[x] != nn {
          pc := pc + 2;
        }
      case SkipEqReg(x, y) =>
        if registers[x] == registers[y] {
          pc := pc + 2;
        }
      case SkipNeReg(x, y) =>
        if registers[x] != registers[y] {
          pc := pc + 2;
        }
      case SkipKey(x) =>
        var vx := registers[x];
        if vx as int >= NumKeys {
          return Err(KeyOutOfRange);
        }
        if pressedKeys[vx] {
          pc := pc + 2;
        }
      case SkipNotKey(x) =>
        var vx := registers[x];
        if vx as int >= NumKeys {
          return Err(KeyOutOfRange);
        }
        if !pressedKeys[vx] {
          pc := pc + 2;
        }
    }

    /** 6xnn, 7xnn, 8xy0..8xy3 and Cxnn: register writes without a flag. */
    method ExecuteAssign(ins: Instr, rnd: u8) returns (r: Result<bool>)
      requires Valid() && 2 <= pc as int <= RamSize && IsAssign(ins)
      modifies registers
      ensures Valid()
      ensures Agrees(ExecAssign(old(View()), ins, rnd), r, old(View()), View())
    {
      r := Ok(false);
      match ins
      case LoadImm(x, nn) =>
        registers[x] := nn;
      case AddImm(x, nn) =>
        registers[x] := WrappingAdd(registers[x], nn);
      case Move(x, y) =>
        registers[x] := registers[y];
      case Or(x, y) =>
        registers[x] := BitOr(registers[x], registers[y]);
      case And(x, y) =>
        registers[x] := BitAnd(registers[x], registers[y]);
      case Xor(x, y) =>
        registers[x] := BitXor(registers[x], registers[y]);
      case Random(x, nn) =>
        registers[x] := BitAnd(rnd, nn);
    }

    /** 8xy4..8xyE: register arithmetic with VF written last. */
    method ExecuteFlagged(ins: Instr) returns (r: Result<bool>)
      requires Valid() && 2 <= pc as int <= RamSize && IsFlagged(ins)
      modifies registers
      ensures Valid()
      ensures Agrees(ExecFlagged(old(View()), ins), r, old(View()), View())
    {
      r := Ok(false);
      match ins
      case AddReg(x, y) =>
        var (newVx, carry) := OverflowingAdd(registers[x], registers[y]);
        registers[x] := newVx;
        registers[0xF] := if carry then 1 else 0;
      case SubReg(x, y) =>
        var (newVx, borrow) := OverflowingSub(registers[x], registers[y]);
        registers[x] := newVx;
        registers[0xF] := if borrow then 0 else 1;
      case ShiftRight(x, _) =>
        var lsb := Lsb(registers[x]);
        registers[x] := ShiftRight1(registers[x]);
        registers[0xF] := lsb;
      case SubRev(x, y) =>
        var (newVx, borrow) := OverflowingSub(registers[y], registers[x]);
        registers[x] := newVx;
        registers[0xF] := if borrow then 0 else 1;
      case ShiftLeft(x, _) =>
        var msb := Msb(registers[x]);
        registers[x] := ShiftLeft1(registers[x]);
        registers[0xF] := msb;
    }

    /** Dxyn, Fx33, Fx55 and Fx65: the arms that read or write RAM. */
    method ExecuteMemory(ins: Instr) returns (r: Result<bool>)
      requires Valid() && 2 <= pc as int <= RamSize && IsMemory(ins)
      modifies ram, screen, registers
      ensures Valid()
      ensures Agrees(ExecMemory(old(View()), ins), r, old(View()), View())
    {
      r := Ok(false);
      match ins
      case Draw(x, y, n) =>
        r := ExecuteDraw(x, y, n);
      case Bcd(x) =>
        r := ExecuteBcd(x);
      case StoreRegs(x) =>
        if indexRegister as int + x >= RamSize {
          return Err(MemoryOutOfRange);
        }
        StoreRegisters(x);
      case LoadRegs(x) =>
        if indexRegister as int + x >= RamSize {
          return Err(MemoryOutOfRange);
        }
        LoadRegisters(x);
    }

    /** Dxyn: draw the n-byte sprite at I at (Vx, Vy); VF reports whether
        a lit pixel was switched off. */
    method ExecuteDraw(x: Nibble, y: Nibble, n: Nibble) returns (r: Result<bool>)
      requires Valid()
      modifies screen, registers
      ensures Valid()
      ensures Agrees(ExecMemory(old(View()), Draw(x, y, n)), r, old(View()), View())
    {
      if n > 0 && indexRegister as int + n > RamSize {
        return Err(MemoryOutOfRange);
      }
      ghost var sprite := SpriteRows(View(), n);
      var flipped := DrawRows(sprite, registers[x], registers[y], n);
      registers[0xF] := if flipped then 1 else 0;
      r := Ok(true);
    }

    /** Fx33: the decimal digits of Vx into RAM[I], RAM[I+1] and RAM[I+2]. */
    method ExecuteBcd(x: Nibble) returns (r: Result<bool>)
      requires Valid()
      modifies ram
      ensures Valid()
      ensures Agrees(ExecMemory(old(View()), Bcd(x)), r, old(View()), View())
    {
      if indexRegister as int + 2 >= RamSize {
        return Err(MemoryOutOfRange);
      }
      var (hundreds, tens, ones) := BcdDigits(registers[x]);
      ram[indexRegister] := hundreds;
      ram[indexRegister as int + 1] := tens;
      ram[indexRegister as int + 2] := ones;
      r := Ok(false);
    }

    /** Annn, Fx07, Fx0A, Fx15, Fx18, Fx1E and Fx29: the index register,
        the timers and the key wait. */
    method ExecuteMisc(ins: Instr) returns (r: Result<bool>)
      requires Valid() && 2 <= pc as int <= RamSize
      requires !IsControl(ins) && !IsSkip(ins) && !IsAssign(ins) && !IsFlagged(ins) && !IsMemory(ins)
      modifies this, registers
      ensures Valid()
      ensures Agrees(ExecMisc(old(View()), ins), r, old(View()), View())
    {
      r := Ok(false);
      match ins
      case LoadIndex(nnn) =>
        indexRegister := nnn as u16;
      case GetDelay(x) =>
        registers[x] := delayTimer;
      case WaitKey(x) =>
        WaitForKey(x);
      case SetDelay(x) =>
        delayTimer := registers[x];
      case SetSound(x) =>
        soundTimer := registers[x];
      case AddIndex(x) =>
        indexRegister := WrappingAdd16(indexRegister, registers[x] as u16);
      case FontChar(x) =>
        indexRegister := (registers[x] as int * 5) as u16;
    }

    /** Dxyn: blit the n rows at I (`sprite`) at (xCoord, yCoord), row by
        row and within a row from the most significant bit; the result says
        whether a lit pixel was switched off. */
    method DrawRows(ghost sprite: seq<u8>, xCoord: u8, yCoord: u8, n: Nibble) returns (flipped: bool)
      requires ram.Length == RamSize && screen.Length == ScreenSize && |sprite| == n
      requires n == 0 || indexRegister as int + n <= RamSize
      requires forall j :: 0 <= j < n ==> sprite[j] == ram[indexRegister as int + j]
      modifies screen
      ensures (screen[..], flipped) == DrawSprite(old(screen[..]), sprite, xCoord, yCoord)
    {
      ghost var before := screen[..];
      flipped := false;
      for row := 0 to n
        invariant (screen[..], flipped) == DrawPrefix(before, sprite, xCoord, yCoord, 8 * row)
      {
        var pixels := ram[indexRegister as int + row];
        assert pixels == sprite[row];
        flipped := DrawRow(before, sprite, xCoord, yCoord, row, pixels, flipped);
      }
    }

    /** One sprite row: XOR its set bits onto the screen from the left,
        accumulating the collision flag. */
    method DrawRow(ghost before: seq<bool>, ghost sprite: seq<u8>, xCoord: u8, yCoord: u8,
                   row: nat, pixels: u8, flippedIn: bool) returns (flipped: bool)
      requires screen.Length == ScreenSize && |before| == ScreenSize && row < |sprite| && pixels == sprite[row]
      requires (screen[..], flippedIn) == DrawPrefix(before, sprite, xCoord, yCoord, 8 * row)
      modifies screen
      ensures (screen[..], flipped) == DrawPrefix(before, sprite, xCoord, yCoord, 8 * row + 8)
    {
      flipped := flippedIn;
      for col := 0 to 8
        modifies screen
        invariant (screen[..], flipped) == DrawPrefix(before, sprite, xCoord, yCoord, 8 * row + col)
      {
        DrawPrefixNext(before, sprite, xCoord, yCoord, row, col);
        if PixelBit(pixels, col) {
          var px := (xCoord as int + col) % ScreenWidth;
          var py := (yCoord as int + row) % ScreenHeight;
          var idx := px + ScreenWidth * py;
          assert idx == PixelIndex(xCoord, yCoord, row, col);
          flipped := flipped || screen[idx];
          screen[idx] := !screen[idx];
        }
      }
    }

    /** Fx0A: Vx := the lowest pressed key; with no key pressed, PC is
        rewound by 2 so that the instruction runs again on the next tick. */
    method WaitForKey(x: Nibble)
      requires Valid() && pc >= 2
      modifies this, registers
      ensures Valid()
      ensures match FirstPressed(old(pressedKeys[..]))
              case Some(k) => View() == old(View()).(v := old(registers[..])[x := k as u8])
              case None => View() == old(View()).(pc := old(pc) - 2)
    {
      var pressed := false;
      var i := 0;
      while i < NumKeys
        invariant 0 <= i <= NumKeys
        invariant FirstPressed(pressedKeys[..]) == FirstPressedFrom(pressedKeys[..], i)
        invariant !pressed && registers[..] == old(registers[..])
      {
        if pressedKeys[i] {
          registers[x] := i as u8;
          pressed := true;
          break;
        }
        i := i + 1;
      }
      if !pressed {
        pc := pc - 2;
      }
    }

    /** Fx55: RAM[I + j] := Vj for j = 0..x. */
    method StoreRegisters(x: Nibble)
      requires Valid() && indexRegister as int + x < RamSize
      modifies ram
      ensures Valid()
      ensures View() == old(View()).(ram := old(ram[..indexRegister]) + old(registers[..x + 1]) +
                                            old(ram[indexRegister as int + x + 1..]))
    {
      var i := indexRegister as int;
      for idx := 0 to x + 1
        invariant forall a :: 0 <= a < RamSize ==>
                    ram[a] == if i <= a < i + idx then registers[a - i] else old(ram[a])
      {
        ram[i + idx] := registers[idx];
      }
      assert ram[..] == old(ram[..i]) + registers[..x + 1] + old(ram[i + x + 1..]);
    }

    /** Fx65: Vj := RAM[I + j] for j = 0..x. */
    method LoadRegisters(x: Nibble)
      requires Valid() && indexRegister as int + x < RamSize
      modifies registers
      ensures Valid()
      ensures View() == old(View()).(v := old(ram[indexRegister..indexRegister as int + x + 1]) +
                                          old(registers[x + 1..]))
    {
      var i := indexRegister as int;
      for idx := 0 to x + 1
        invariant forall r :: 0 <= r < RegisterCount ==>
                    registers[r] == if r < idx then ram[i + r] else old(registers[r])
      {
        registers[idx] := ram[i + idx];
      }
      assert registers[..] == ram[i..i + x + 1] + old(registers[x + 1..]);
    }

    /** `tick_timers`: unless paused, count the timers down; true when the
        sound timer runs out on this tick. */
    method TickTimers() returns (beep: bool)
      requires Valid()
      modifies this
      ensures Valid() && (View(), beep) == TimerTick(old(View()))
    {
      if isPaused {
        return false;
      }
      beep := false;
      if delayTimer > 0 {
        delayTimer := delayTimer - 1;
      }
      if soundTimer > 0 {
        if soundTimer == 1 {
          beep := true;
        }
        soundTimer := soundTimer - 1;
      }
    }
  }
}
