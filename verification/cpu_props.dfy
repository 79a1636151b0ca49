/** What one instruction, one step and one timer tick of module `Cpu` do,
    stated against the source's description of each opcode rather than
    against the functions' bodies. */
module CpuProps {
  import opened Words
  import opened Opcode
  import opened Sprite
  import opened Cpu

  /** A machine on which an instruction can run: buffers of the right size
      and PC already past the instruction. */
  predicate Ready(s: Machine)
  {
    s.Valid() && 2 <= s.pc as int <= RamSize
  }

  // ---------------------------------------------------------------- state

  /** `Emu::new`: PC at 0x200, the font at address 0, all else zero, false
      or empty. */
  lemma InitialState()
    ensures var m := Initial();
      m.pc == 0x200 && m.ram[..FontsetSize] == Fontset &&
      (forall a :: FontsetSize <= a < RamSize ==> m.ram[a] == 0) &&
      (forall r :: 0 <= r < RegisterCount ==> m.v[r] == 0) &&
      (forall d :: 0 <= d < StackSize ==> m.stack[d] == 0) &&
      (forall p :: 0 <= p < ScreenSize ==> !m.screen[p]) &&
      (forall k :: 0 <= k < NumKeys ==> !m.keys[k]) &&
      m.i == 0 && m.sp == 0 && m.delay == 0 && m.sound == 0 && !m.paused
  {
    var m := Initial();
    assert m.ram[..FontsetSize] == Fontset;
  }

  /** `load`: a ROM that fits lands at 0x200 and nothing else changes; one
      that does not fit is refused. */
  lemma LoadRomPlacement(s: Machine, data: seq<u8>)
    requires s.Valid()
    ensures LoadRom(s, data).Err? <==> StartAddr + |data| > RamSize
    ensures LoadRom(s, data).Err? ==> LoadRom(s, data).fault == RomTooLarge
    ensures LoadRom(s, data).Ok? ==>
      var t := LoadRom(s, data).value;
      t.Valid() && t == s.(ram := t.ram) &&
      (forall j :: 0 <= j < |data| ==> t.ram[StartAddr + j] == data[j]) &&
      (forall a :: 0 <= a < RamSize && !(StartAddr <= a < StartAddr + |data|) ==> t.ram[a] == s.ram[a])
  {
  }

  // ---------------------------------------------------------------- skips

  /** When each conditional skip skips, as the opcode table describes it. */
  predicate Skips(s: Machine, ins: Instr)
    requires s.Valid()
  {
    match ins
    case SkipEqImm(x, nn) => s.v[x] == nn
    case SkipNeImm(x, nn) => s.v[x] != nn
    case SkipEqReg(x, y) => s.v[x] == s.v[y]
    case SkipNeReg(x, y) => s.v[x] != s.v[y]
    case SkipKey(x) => s.v[x] as int < NumKeys && s.keys[s.v[x]]
    case SkipNotKey(x) => s.v[x] as int < NumKeys && !s.keys[s.v[x]]
    case _ => false
  }

  /** A step over a skip instruction moves PC on by 4 when the condition
      holds and by 2 otherwise, and changes nothing else; a key skip with
      Vx > 0xF faults. */
  lemma StepSkip(s: Machine, rnd: u8)
    requires s.Valid() && !s.paused && s.pc as int + 1 < RamSize
    requires Decode(FetchWord(s.ram, s.pc)).Some? && IsSkip(Decode(FetchWord(s.ram, s.pc)).value)
    ensures var ins := Decode(FetchWord(s.ram, s.pc)).value;
      if (ins.SkipKey? || ins.SkipNotKey?) && s.v[ins.x] as int >= NumKeys
      then Step(s, rnd) == Err(KeyOutOfRange)
      else Step(s, rnd) == Ok((s.(pc := s.pc + if Skips(s, ins) then 4 else 2), false))
  {
  }

  // ---------------------------------------------------------------- calls

  /** 2nnn pushes the return address at `stack[sp]` and jumps; a 00EE
      fetched at nnn then pops that address and restores SP, so the pair
      leaves nothing behind but the stale stack slot. */
  lemma CallThenReturn(s: Machine, nnn: Address, rnd: u8)
    requires Ready(s) && s.sp as int < StackSize && nnn + 2 <= RamSize
    ensures Exec(s, Call(nnn), rnd).Ok?
    ensures var (t, _) := Exec(s, Call(nnn), rnd).value;
      t.pc as int == nnn && t.sp == s.sp + 1 && t.stack == s.stack[s.sp := s.pc] &&
      Exec(t.(pc := t.pc + 2), Return, rnd) == Ok((s.(stack := t.stack), false))
  {
  }

  /** The stack faults of 2nnn and 00EE. */
  lemma StackFaults(s: Machine, nnn: Address, rnd: u8)
    requires Ready(s)
    ensures Exec(s, Call(nnn), rnd).Err? <==> s.sp as int >= StackSize
    ensures s.sp == 0 ==> Exec(s, Return, rnd) == Err(StackUnderflow)
    ensures Exec(s, Return, rnd).Err? <==> s.sp == 0 || s.sp as int > StackSize
  {
  }

  // ---------------------------------------------------------------- ALU

  /** `t` is `s` with Vx := `vx` and then VF := `vf`: the flag is written
      last, so it wins when x is F; no other register or field changes. */
  predicate SetsWithFlag(s: Machine, t: Machine, x: Nibble, vx: int, vf: int)
    requires s.Valid() && t.Valid()
  {
    t == s.(v := t.v) && t.v[0xF] as int == vf &&
    (x != 0xF ==> t.v[x] as int == vx) &&
    forall r :: 0 <= r < 0xF && r != x ==> t.v[r] == s.v[r]
  }

  /** 8xy4: Vx := (Vx + Vy) mod 256, VF := 1 exactly when the sum exceeds 255. */
  lemma AddRegFlag(s: Machine, x: Nibble, y: Nibble, rnd: u8)
    requires Ready(s)
    ensures Exec(s, AddReg(x, y), rnd).Ok?
    ensures var (t, fb) := Exec(s, AddReg(x, y), rnd).value;
      var sum := s.v[x] as int + s.v[y] as int;
      !fb && t.Valid() && SetsWithFlag(s, t, x, sum % 0x100, if sum > 0xFF then 1 else 0)
  {
  }

  /** 8xy5: Vx := (Vx - Vy) mod 256, VF := 1 exactly when there is no borrow. */
  lemma SubRegFlag(s: Machine, x: Nibble, y: Nibble, rnd: u8)
    requires Ready(s)
    ensures Exec(s, SubReg(x, y), rnd).Ok?
    ensures var (t, fb) := Exec(s, SubReg(x, y), rnd).value;
      var diff := s.v[x] as int - s.v[y] as int;
      !fb && t.Valid() && SetsWithFlag(s, t, x, diff % 0x100, if diff < 0 then 0 else 1)
  {
  }

  /** 8xy7: Vx := (Vy - Vx) mod 256, VF := 1 exactly when there is no borrow. */
  lemma SubRevFlag(s: Machine, x: Nibble, y: Nibble, rnd: u8)
    requires Ready(s)
    ensures Exec(s, SubRev(x, y), rnd).Ok?
    ensures var (t, fb) := Exec(s, SubRev(x, y), rnd).value;
      var diff := s.v[y] as int - s.v[x] as int;
      !fb && t.Valid() && SetsWithFlag(s, t, x, diff % 0x100, if diff < 0 then 0 else 1)
  {
  }

  /** 8xy6: Vx := Vx / 2, VF := the bit shifted out; Vy is ignored. */
  lemma ShiftRightFlag(s: Machine, x: Nibble, y: Nibble, rnd: u8)
    requires Ready(s)
    ensures Exec(s, ShiftRight(x, y), rnd).Ok?
    ensures var (t, fb) := Exec(s, ShiftRight(x, y), rnd).value;
      !fb && t.Valid() && SetsWithFlag(s, t, x, s.v[x] as int / 2, s.v[x] as int % 2)
  {
  }

  /** 8xyE: Vx := 2 Vx mod 256, VF := the bit shifted out; Vy is ignored. */
  lemma ShiftLeftFlag(s: Machine, x: Nibble, y: Nibble, rnd: u8)
    requires Ready(s)
    ensures Exec(s, ShiftLeft(x, y), rnd).Ok?
    ensures var (t, fb) := Exec(s, ShiftLeft(x, y), rnd).value;
      !fb && t.Valid() && SetsWithFlag(s, t, x, (2 * s.v[x] as int) % 0x100, s.v[x] as int / 0x80)
  {
  }

  /** 6xnn, 7xnn, 8xy0, Cxnn and Fx07 write Vx alone (VF too only when x
      is F) and report no framebuffer change; 7xnn wraps modulo 256 and Cxnn
      keeps the bits of the random byte that nn selects. */
  lemma RegisterWrites(s: Machine, x: Nibble, y: Nibble, nn: u8, rnd: u8)
    requires Ready(s)
    ensures Exec(s, LoadImm(x, nn), rnd) == Ok((s.(v := s.v[x := nn]), false))
    ensures Exec(s, AddImm(x, nn), rnd) ==
              Ok((s.(v := s.v[x := ((s.v[x] as int + nn as int) % 0x100) as u8]), false))
    ensures Exec(s, Move(x, y), rnd) == Ok((s.(v := s.v[x := s.v[y]]), false))
    ensures Exec(s, Random(x, nn), rnd) == Ok((s.(v := s.v[x := BitAnd(rnd, nn)]), false))
    ensures Exec(s, GetDelay(x), rnd) == Ok((s.(v := s.v[x := s.delay]), false))
  {
  }

  /** 8xy1, 8xy2 and 8xy3: Vx := Vx | Vy, Vx & Vy, Vx ^ Vy bit by bit; VF is
      left alone (unless x is F) and no framebuffer change is reported. */
  lemma BitwiseWrites(s: Machine, x: Nibble, y: Nibble, rnd: u8)
    requires Ready(s)
    ensures Exec(s, Or(x, y), rnd) == Ok((s.(v := s.v[x := (s.v[x] as bv8 | s.v[y] as bv8) as u8]), false))
    ensures Exec(s, And(x, y), rnd) == Ok((s.(v := s.v[x := (s.v[x] as bv8 & s.v[y] as bv8) as u8]), false))
    ensures Exec(s, Xor(x, y), rnd) == Ok((s.(v := s.v[x := (s.v[x] as bv8 ^ s.v[y] as bv8) as u8]), false))
  {
  }

  /** Fx15 and Fx18: the delay or the sound timer := Vx; nothing else changes. */
  lemma TimerWrites(s: Machine, x: Nibble, rnd: u8)
    requires Ready(s)
    ensures Exec(s, SetDelay(x), rnd) == Ok((s.(delay := s.v[x]), false))
    ensures Exec(s, SetSound(x), rnd) == Ok((s.(sound := s.v[x]), false))
  {
  }

  // ---------------------------------------------------------------- jumps

  /** 1nnn: PC := nnn and nothing else changes. Bnnn: PC := V0 + nnn, a sum
      of up to 0xFF + 0xFFF that does not wrap; a PC of 0xFFF or more then
      makes the next fetch fault. */
  lemma JumpEffect(s: Machine, nnn: Address, rnd: u8)
    requires Ready(s)
    ensures Exec(s, Jump(nnn), rnd) == Ok((s.(pc := nnn as u16), false))
    ensures Exec(s, JumpOffset(nnn), rnd).Ok?
    ensures var (t, fb) := Exec(s, JumpOffset(nnn), rnd).value;
      !fb && t == s.(pc := t.pc) && t.pc as int == s.v[0] as int + nnn &&
      (!t.paused && t.pc as int + 1 >= RamSize ==> Step(t, rnd) == Err(PcOutOfRange))
  {
  }

  // ---------------------------------------------------------------- draw

  /** Dxyn toggles exactly the pixels under set bits of the n rows at I,
      sets VF to 1 exactly when one of them was lit and to 0 otherwise,
      reports a framebuffer change, and touches nothing else. It faults
      when the rows reach past RAM. */
  lemma DrawInstruction(s: Machine, x: Nibble, y: Nibble, n: Nibble, rnd: u8)
    requires Ready(s)
    ensures Exec(s, Draw(x, y, n), rnd).Err? <==> n > 0 && s.i as int + n > RamSize
    ensures Exec(s, Draw(x, y, n), rnd).Ok? ==>
      var (t, fb) := Exec(s, Draw(x, y, n), rnd).value;
      var sprite := SpriteRows(s, n);
      fb && t.Valid() && t == s.(screen := t.screen, v := t.v) &&
      (forall p :: 0 <= p < ScreenSize ==> t.screen[p] == (s.screen[p] != Covers(sprite, s.v[x], s.v[y], p))) &&
      (t.v[0xF] == 1 <==> exists p :: 0 <= p < ScreenSize && Covers(sprite, s.v[x], s.v[y], p) && s.screen[p]) &&
      t.v[0xF] <= 1 && (forall r :: 0 <= r < 0xF ==> t.v[r] == s.v[r])
  {
    if !(n > 0 && s.i as int + n > RamSize) {
      DrawSpriteEffect(s.screen, SpriteRows(s, n), s.v[x], s.v[y]);
    }
  }

  /** Executing the same Dxyn twice (x and y not F, so the coordinates do
      not move) restores the screen; the second draw reports a collision
      exactly when the first one lit a pixel that had been dark. */
  lemma DrawTwiceRestoresScreen(s: Machine, x: Nibble, y: Nibble, n: Nibble, rnd: u8)
    requires Ready(s) && x != 0xF && y != 0xF && !(n > 0 && s.i as int + n > RamSize)
    ensures Exec(s, Draw(x, y, n), rnd).Ok?
    ensures var t := Exec(s, Draw(x, y, n), rnd).value.0;
      Ready(t) && Exec(t, Draw(x, y, n), rnd).Ok? &&
      var u := Exec(t, Draw(x, y, n), rnd).value.0;
      u.screen == s.screen && u == s.(v := u.v) &&
      (u.v[0xF] == 1 <==> exists p :: 0 <= p < ScreenSize && Covers(SpriteRows(s, n), s.v[x], s.v[y], p) && !s.screen[p])
  {
    var t := Exec(s, Draw(x, y, n), rnd).value.0;
    assert SpriteRows(t, n) == SpriteRows(s, n);
    DrawTwiceRestores(s.screen, SpriteRows(s, n), s.v[x], s.v[y]);
  }

  // ---------------------------------------------------------------- framebuffer flag

  /** Only 00E0 and Dxyn report a framebuffer change, and every instruction
      that changes the screen reports it. */
  lemma FramebufferFlag(s: Machine, ins: Instr, rnd: u8)
    requires Ready(s)
    ensures Exec(s, ins, rnd).Ok? ==>
      (Exec(s, ins, rnd).value.1 <==> ins.Draw? || ins.ClearScreen?) &&
      (Exec(s, ins, rnd).value.0.screen != s.screen ==> Exec(s, ins, rnd).value.1)
  {
    if IsControl(ins) {
      ControlFlag(s, ins);
    } else if IsSkip(ins) {
      SkipFlag(s, ins);
    } else if IsAssign(ins) {
      AssignFlag(s, ins, rnd);
    } else if IsFlagged(ins) {
      ArithFlag(s, ins);
    } else if IsMemory(ins) {
      MemoryFlag(s, ins);
    } else {
      MiscFlag(s, ins);
    }
  }

  /** The flag of outcome `r` of `ins` says "framebuffer changed" exactly
      for Dxyn and 00E0, and every screen change is flagged. */
  predicate FlagHonest(s: Machine, ins: Instr, r: Result<(Machine, bool)>)
  {
    r.Ok? ==> (r.value.1 <==> ins.Draw? || ins.ClearScreen?) && (r.value.0.screen != s.screen ==> r.value.1)
  }

  lemma ControlFlag(s: Machine, ins: Instr)
    requires Ready(s) && IsControl(ins)
    ensures FlagHonest(s, ins, ExecControl(s, ins))
  {
  }

  lemma SkipFlag(s: Machine, ins: Instr)
    requires Ready(s) && IsSkip(ins)
    ensures FlagHonest(s, ins, ExecSkip(s, ins))
  {
  }

  lemma AssignFlag(s: Machine, ins: Instr, rnd: u8)
    requires Ready(s) && IsAssign(ins)
    ensures FlagHonest(s, ins, ExecAssign(s, ins, rnd))
  {
  }

  lemma ArithFlag(s: Machine, ins: Instr)
    requires Ready(s) && IsFlagged(ins)
    ensures FlagHonest(s, ins, ExecFlagged(s, ins))
  {
  }

  lemma MemoryFlag(s: Machine, ins: Instr)
    requires Ready(s) && IsMemory(ins)
    ensures FlagHonest(s, ins, ExecMemory(s, ins))
  {
  }

  lemma MiscFlag(s: Machine, ins: Instr)
    requires Ready(s)
    requires !IsControl(ins) && !IsSkip(ins) && !IsAssign(ins) && !IsFlagged(ins) && !IsMemory(ins)
    ensures FlagHonest(s, ins, ExecMisc(s, ins))
  {
  }

  /** 0000 changes nothing. */
  lemma NopChangesNothing(s: Machine, rnd: u8)
    requires Ready(s)
    ensures Exec(s, Nop, rnd) == Ok((s, false))
  {
  }

  /** 00E0 as the interpreter has it: the screen is blanked but the change
      is not reported, so a front end that repaints only on a reported
      change keeps showing the old picture. */
  function ClearScreenAsWritten(s: Machine): (r: (Machine, bool))
    requires s.Valid()
    ensures r.0.Valid() && r.0 == s.(screen := r.0.screen)
    ensures forall p :: 0 <= p < ScreenSize ==> !r.0.screen[p]
    ensures !r.1
  {
    (s.(screen := seq(ScreenSize, _ => false)), false)
  }

  /** With a lit pixel, 00E0 as written changes the screen without saying
      so; the modelled 00E0 says so. */
  lemma ClearScreenUnreported(s: Machine, p: nat, rnd: u8)
    requires Ready(s) && p < ScreenSize && s.screen[p]
    ensures ClearScreenAsWritten(s).0.screen != s.screen && !ClearScreenAsWritten(s).1
    ensures Exec(s, ClearScreen, rnd) == Ok((ClearScreenAsWritten(s).0, true))
  {
    assert ClearScreenAsWritten(s).0.screen[p] != s.screen[p];
  }

  // ---------------------------------------------------------------- key wait

  /** Fx0A: with a key down, Vx := the lowest pressed key; with none, PC is
      rewound onto the instruction and nothing else changes. */
  lemma WaitKeyEffect(s: Machine, x: Nibble, rnd: u8)
    requires Ready(s)
    ensures Exec(s, WaitKey(x), rnd).Ok? && !Exec(s, WaitKey(x), rnd).value.1
    ensures var t := Exec(s, WaitKey(x), rnd).value.0;
      (forall k :: 0 <= k < NumKeys ==> !s.keys[k]) ==> t == s.(pc := s.pc - 2)
    ensures var t := Exec(s, WaitKey(x), rnd).value.0;
      forall k :: 0 <= k < NumKeys && s.keys[k] && (forall j :: 0 <= j < k ==> !s.keys[j]) ==>
        t == s.(v := s.v[x := k as u8])
  {
    var r := FirstPressed(s.keys);
    if r.Some? {
      forall k | 0 <= k < NumKeys && s.keys[k] && (forall j :: 0 <= j < k ==> !s.keys[j])
        ensures k == r.value
      {
        if k < r.value {
        } else if r.value < k {
        }
      }
    }
  }

  /** A step onto Fx0A with no key down leaves the whole machine as it
      was, so the same instruction runs again on the next step; with a key
      down it stores the lowest one and moves on. */
  lemma StepWaitsForKey(s: Machine, rnd: u8)
    requires s.Valid() && !s.paused && s.pc as int + 1 < RamSize
    requires Decode(FetchWord(s.ram, s.pc)).Some? && Decode(FetchWord(s.ram, s.pc)).value.WaitKey?
    ensures (forall k :: 0 <= k < NumKeys ==> !s.keys[k]) ==> Step(s, rnd) == Ok((s, false))
    ensures var x := Decode(FetchWord(s.ram, s.pc)).value.x;
      forall k :: 0 <= k < NumKeys && s.keys[k] && (forall j :: 0 <= j < k ==> !s.keys[j]) ==>
        Step(s, rnd) == Ok((s.(pc := s.pc + 2, v := s.v[x := k as u8]), false))
  {
    var x := Decode(FetchWord(s.ram, s.pc)).value.x;
    WaitKeyEffect(s.(pc := s.pc + 2), x, rnd);
  }

  // ---------------------------------------------------------------- memory

  /** Fx33: the decimal digits of Vx at I, I+1, I+2; nothing else changes.
      It faults when I+2 is past RAM. */
  lemma BcdEffect(s: Machine, x: Nibble, rnd: u8)
    requires Ready(s)
    ensures Exec(s, Bcd(x), rnd).Err? <==> s.i as int + 2 >= RamSize
    ensures Exec(s, Bcd(x), rnd).Ok? ==>
      var (t, fb) := Exec(s, Bcd(x), rnd).value;
      var a, vx := s.i as int, s.v[x] as int;
      !fb && t.Valid() && t == s.(ram := t.ram) &&
      t.ram[a] as int == vx / 100 && t.ram[a + 1] as int == (vx / 10) % 10 && t.ram[a + 2] as int == vx % 10 &&
      forall b :: 0 <= b < RamSize && !(a <= b < a + 3) ==> t.ram[b] == s.ram[b]
  {
    if s.i as int + 2 < RamSize {
      var (h, te, o) := BcdDigits(s.v[x]);
      var vx := s.v[x] as int;
      assert vx / 100 == h as int && (vx / 10) % 10 == te as int && vx % 10 == o as int;
    }
  }

  /** Fx55: RAM[I + j] := Vj for j = 0..x; I, the registers and every other
      cell are unchanged. It faults when I + x is past RAM. */
  lemma StoreEffect(s: Machine, x: Nibble, rnd: u8)
    requires Ready(s)
    ensures Exec(s, StoreRegs(x), rnd).Err? <==> s.i as int + x >= RamSize
    ensures Exec(s, StoreRegs(x), rnd).Ok? ==>
      var (t, fb) := Exec(s, StoreRegs(x), rnd).value;
      var a := s.i as int;
      !fb && t.Valid() && t == s.(ram := t.ram) &&
      (forall j :: 0 <= j <= x ==> t.ram[a + j] == s.v[j]) &&
      forall b :: 0 <= b < RamSize && !(a <= b <= a + x) ==> t.ram[b] == s.ram[b]
  {
  }

  /** Fx65: Vj := RAM[I + j] for j = 0..x; I, RAM and the other registers
      are unchanged. It faults when I + x is past RAM. */
  lemma LoadEffect(s: Machine, x: Nibble, rnd: u8)
    requires Ready(s)
    ensures Exec(s, LoadRegs(x), rnd).Err? <==> s.i as int + x >= RamSize
    ensures Exec(s, LoadRegs(x), rnd).Ok? ==>
      var (t, fb) := Exec(s, LoadRegs(x), rnd).value;
      var a := s.i as int;
      !fb && t.Valid() && t == s.(v := t.v) &&
      (forall j :: 0 <= j <= x ==> t.v[j] == s.ram[a + j]) &&
      forall r :: x < r < RegisterCount ==> t.v[r] == s.v[r]
  {
  }

  /** Fx65 right after Fx55 with the same x reads back what was stored and
      so changes nothing. */
  lemma StoreThenLoad(s: Machine, x: Nibble, rnd: u8)
    requires Ready(s) && s.i as int + x < RamSize
    ensures Exec(s, StoreRegs(x), rnd).Ok?
    ensures var t := Exec(s, StoreRegs(x), rnd).value.0;
      Ready(t) && Exec(t, LoadRegs(x), rnd) == Ok((t, false))
  {
    var t := Exec(s, StoreRegs(x), rnd).value.0;
    var a := s.i as int;
    assert t.ram[a..a + x + 1] == s.v[..x + 1];
    assert t.ram[a..a + x + 1] + s.v[x + 1..] == s.v;
  }

  // ---------------------------------------------------------------- index register

  /** Fx1E: I := (I + Vx) mod 65536; VF and everything else unchanged. */
  lemma AddIndexEffect(s: Machine, x: Nibble, rnd: u8)
    requires Ready(s)
    ensures Exec(s, AddIndex(x), rnd).Ok?
    ensures var (t, fb) := Exec(s, AddIndex(x), rnd).value;
      !fb && t == s.(i := t.i) && t.i as int == (s.i as int + s.v[x] as int) % 0x1_0000
  {
  }

  /** Fx29: I := 5 Vx, which for a hex digit is where its glyph starts in
      the font loaded at address 0. */
  lemma FontCharEffect(s: Machine, x: Nibble, rnd: u8)
    requires Ready(s)
    ensures Exec(s, FontChar(x), rnd).Ok?
    ensures var (t, fb) := Exec(s, FontChar(x), rnd).value;
      !fb && t == s.(i := t.i) && t.i as int == 5 * s.v[x] as int &&
      (s.v[x] < 0x10 && s.ram[..FontsetSize] == Fontset ==>
         t.i as int + 5 <= FontsetSize && t.ram[t.i .. t.i as int + 5] == Fontset[t.i .. t.i as int + 5])
  {
    var t := Exec(s, FontChar(x), rnd).value.0;
    if s.v[x] < 0x10 && s.ram[..FontsetSize] == Fontset {
      var a := t.i as int;
      forall j | a <= j < a + 5
        ensures s.ram[j] == Fontset[j]
      {
        assert s.ram[j] == s.ram[..FontsetSize][j];
      }
    }
  }

  // ---------------------------------------------------------------- pause and timers

  /** While paused, neither a CPU step nor a timer tick does anything. */
  lemma PausedIsInert(s: Machine, rnd: u8)
    requires s.Valid() && s.paused
    ensures Step(s, rnd) == Ok((s, false))
    ensures TimerTick(s) == (s, false)
  {
  }

  /** A timer tick counts each timer down unless it is already 0 and beeps
      exactly when the sound timer was 1. */
  lemma TimerTickEffect(s: Machine)
    requires !s.paused
    ensures var (t, beep) := TimerTick(s);
      t == s.(delay := t.delay, sound := t.sound) &&
      t.delay as int == (if s.delay == 0 then 0 else s.delay as int - 1) &&
      t.sound as int == (if s.sound == 0 then 0 else s.sound as int - 1) &&
      (beep <==> s.sound == 1)
  {
  }

  /** The machine after `k` timer ticks. */
  function Ticks(s: Machine, k: nat): (t: Machine)
    ensures t == s.(delay := t.delay, sound := t.sound)
    decreases k
  {
    if k == 0 then s else TimerTick(Ticks(s, k - 1)).0
  }

  /** How many of the first `k` timer ticks beep. */
  function BeepCount(s: Machine, k: nat): (n: nat)
    ensures n <= k
    decreases k
  {
    if k == 0 then 0 else BeepCount(s, k - 1) + (if TimerTick(Ticks(s, k - 1)).1 then 1 else 0)
  }

  /** Left running, the sound timer counts down to 0 and stays there, and
      the beep sounds exactly once, on the tick that takes it from 1 to 0. */
  lemma {:induction false} SoundCountdown(s: Machine, k: nat)
    requires !s.paused
    ensures Ticks(s, k).sound as int == if k <= s.sound as int then s.sound as int - k else 0
    ensures BeepCount(s, k) == if 0 < s.sound as int <= k then 1 else 0
    decreases k
  {
    if k > 0 {
      SoundCountdown(s, k - 1);
    }
  }

  // ---------------------------------------------------------------- a program

  /** A step fetches the big-endian opcode at PC, moves PC past it and
      executes what it decodes to. */
  lemma StepFetches(s: Machine, rnd: u8, f: Nibbles, ins: Instr)
    requires s.Valid() && !s.paused && s.pc as int + 1 < RamSize
    requires s.ram[s.pc] as int == 0x10 * f.d1 + f.d2 && s.ram[s.pc as int + 1] as int == 0x10 * f.d3 + f.d4
    requires Decode(Join(f)) == Some(ins)
    ensures Step(s, rnd) == Exec(s.(pc := s.pc + 2), ins, rnd)
  {
    assert FetchWord(s.ram, s.pc) == Join(f);
  }

  /** A step onto 6xnn leaves nn in Vx and moves PC past it. */
  lemma StepLoadImm(s: Machine, rnd: u8, x: Nibble, nn: u8)
    requires s.Valid() && !s.paused && s.pc as int + 1 < RamSize
    requires s.ram[s.pc] as int == 0x60 + x && s.ram[s.pc as int + 1] == nn
    ensures Step(s, rnd) == Ok((s.(pc := s.pc + 2, v := s.v[x := nn]), false))
  {
    var f := Nibbles(6, x, nn as int / 0x10, nn as int % 0x10);
    SplitJoin(f);
    StepFetches(s, rnd, f, LoadImm(x, nn));
  }

  /** A step onto 7xnn adds nn to Vx modulo 256, leaves VF alone (unless
      x is F) and moves PC past it. */
  lemma StepAddImm(s: Machine, rnd: u8, x: Nibble, nn: u8)
    requires s.Valid() && !s.paused && s.pc as int + 1 < RamSize
    requires s.ram[s.pc] as int == 0x70 + x && s.ram[s.pc as int + 1] == nn
    ensures Step(s, rnd) ==
              Ok((s.(pc := s.pc + 2, v := s.v[x := ((s.v[x] as int + nn as int) % 0x100) as u8]), false))
  {
    var f := Nibbles(7, x, nn as int / 0x10, nn as int % 0x10);
    SplitJoin(f);
    StepFetches(s, rnd, f, AddImm(x, nn));
  }

  /** A step onto Annn sets I to nnn and moves PC past it. */
  lemma StepLoadIndex(s: Machine, rnd: u8, d2: Nibble, d3: Nibble, d4: Nibble)
    requires s.Valid() && !s.paused && s.pc as int + 1 < RamSize
    requires s.ram[s.pc] as int == 0xA0 + d2 && s.ram[s.pc as int + 1] as int == 0x10 * d3 + d4
    ensures Step(s, rnd) == Ok((s.(pc := s.pc + 2, i := (0x100 * d2 + 0x10 * d3 + d4) as u16), false))
  {
    var f := Nibbles(0xA, d2, d3, d4);
    SplitJoin(f);
    StepFetches(s, rnd, f, LoadIndex(0x100 * d2 + 0x10 * d3 + d4));
  }

  /** 6005 7003 A000 at PC = 0x200 runs in three steps to V0 = 8, I = 0 and
      PC = 0x206, touching nothing else. */
  lemma RunSmallProgram(s0: Machine, rnd: u8)
    requires s0.Valid() && !s0.paused && s0.pc == 0x200
    requires s0.ram[0x200..0x206] == [0x60, 0x05, 0x70, 0x03, 0xA0, 0x00]
    ensures Step(s0, rnd) == Ok((s0.(pc := 0x202, v := s0.v[0 := 5]), false))
    ensures Step(s0.(pc := 0x202, v := s0.v[0 := 5]), rnd) == Ok((s0.(pc := 0x204, v := s0.v[0 := 8]), false))
    ensures Step(s0.(pc := 0x204, v := s0.v[0 := 8]), rnd) ==
              Ok((s0.(pc := 0x206, v := s0.v[0 := 8], i := 0), false))
  {
    var code := s0.ram[0x200..0x206];
    assert s0.ram[0x200] == code[0] && s0.ram[0x201] == code[1];
    assert s0.ram[0x202] == code[2] && s0.ram[0x203] == code[3];
    assert s0.ram[0x204] == code[4] && s0.ram[0x205] == code[5];
    StepLoadImm(s0, rnd, 0, 5);
    var s1 := s0.(pc := 0x202, v := s0.v[0 := 5]);
    StepAddImm(s1, rnd, 0, 3);
    var s2 := Step(s1, rnd).value.0;
    assert s2.v == s0.v[0 := 8];
    StepLoadIndex(s2, rnd, 0, 0, 0);
  }

  /** Loading 6005 7003 A000 into a fresh machine puts it at PC. */
  lemma LoadSmallProgram()
    ensures LoadRom(Initial(), [0x60, 0x05, 0x70, 0x03, 0xA0, 0x00]).Ok?
    ensures var s0 := LoadRom(Initial(), [0x60, 0x05, 0x70, 0x03, 0xA0, 0x00]).value;
      !s0.paused && s0.pc == 0x200 && s0.ram[0x200..0x206] == [0x60, 0x05, 0x70, 0x03, 0xA0, 0x00]
  {
  }
}
