# CHIP-8 interpreter core in Dafny

This project models the core of a CHIP-8 interpreter written in Rust.
It covers:

- the `Emu` machine of `chip8_core/src/lib.rs`, including its construction,
  reset, ROM loading, key input and display access;
- the 16-slot stack of 16-bit return addresses, and the fetch-decode-execute
  cycle over all 35
  instruction arms;
- the timer tick, which the desktop front end calls at its configured
  ticks-per-second rate (`desktop/src/app.rs:96`), and the 80-byte font;
- the save states of the desktop front end (`desktop/src/savestates.rs`).

The model has two layers:

- **Values.** Module `Cpu` describes the machine state as a datatype
  `Machine`, and describes one instruction (`Exec`), one CPU step (`Step`),
  one timer tick (`TimerTick`) and a ROM load (`LoadRom`) as functions on it.
  Module `Opcode` decodes a 16-bit opcode into an `Instr` datatype, trying the
  arms in the interpreter's order. Module `Sprite` defines the Dxyn blit on
  the 64x32 screen, one sprite bit at a time.
- **The object.** Class `Emulator.Emu` keeps the interpreter's fields as
  fields and fixed-size arrays and updates them in place, as the Rust methods
  do. Each method is proved to change the state exactly as the matching
  function of `Cpu` prescribes (predicate `Agrees`). The Dxyn loop nest and
  the Fx55/Fx65 copies are loops with invariants.

Properties of the value layer are proved in module `CpuProps`:

- what each instruction does, stated the way the opcode table states it
  rather than the way the function is written;
- the fault conditions;
- the framebuffer flag;
- the key wait;
- the timer countdown;
- a small program run end to end.

Module `Words` writes out the Rust integer operations the core relies on:
`u8`/`u16` wrap-around, `overflowing_add/sub`, shifts and masks.

Where the Rust code panics, the model returns a `Fault` and the state is left
as it was. The cases are:

- an index past RAM, the stack or the key array;
- a `u16` overflow in a debug build;
- `unimplemented!` on an unknown opcode.

Opcode 5xyN is decoded for every last nibble, as the interpreter's
`(5, _, _, _)` arm does (`Opcode.SkipEqRegAnyLastNibble`). It re-encodes
canonically as 5xy0.

## Model

| member | source | states |
|---|---|---|
| Words.OverflowingAdd | chip8_core/src/lib.rs:248-257 | `u8::overflowing_add`: the sum modulo 256, with the carry set exactly when the true sum exceeds 255 |
| Words.OverflowingSub | chip8_core/src/lib.rs:259-268 | `u8::overflowing_sub`: the difference modulo 256, with the borrow set exactly when a < b |
| Words.WrappingAdd | chip8_core/src/lib.rs:218-222 | `u8::wrapping_add`: (a + b) mod 256 |
| Words.WrappingAdd16 | chip8_core/src/lib.rs:410-414 | `u16::wrapping_add`: (a + b) mod 65536 |
| Words.ShiftLeft1 | chip8_core/src/lib.rs:288-293 | `<<= 1` on a byte drops the top bit: 2a mod 256 |
| Words.Lsb | chip8_core/src/lib.rs:270-275 | `& 1` is a mod 2 |
| Words.Msb | chip8_core/src/lib.rs:288-293 | `(a >> 7) & 1` is a / 128, the bit shifted out by `<<= 1` |
| Opcode.Split | chip8_core/src/lib.rs:157-160 | the four masked and shifted digits recompose the opcode, so no bit is lost |
| Opcode.SplitJoin | chip8_core/src/lib.rs:157-160 | splitting the opcode built from four nibbles gives back those nibbles |
| Opcode.DecodeEncode | chip8_core/src/lib.rs:164-453 | every instruction is selected by its canonical opcode: no arm is shadowed by an earlier one |
| Opcode.EncodeDecode | chip8_core/src/lib.rs:164-453 | every opcode that reaches an arm is the canonical opcode of that arm, except that 5xyN re-encodes as 5xy0 |
| Opcode.SkipEqRegAnyLastNibble | chip8_core/src/lib.rs:204-210 | 5xyN selects the Vx == Vy skip whatever N is |
| Sprite.PixelBitIsMask | chip8_core/src/lib.rs:336-337 | for every sprite byte and column, the bit test used by the blit is the source's `pixels & (0b1000_0000 >> x_line) != 0` |
| Sprite.PixelIndex | chip8_core/src/lib.rs:339-343 | the wrapped pixel index is always on the 2048-pixel screen |
| Sprite.WrapsAtRightEdge | chip8_core/src/lib.rs:339-343 | a sprite drawn at column 60 covers columns 60..63 and then 0..3 |
| Sprite.LandsAt | chip8_core/src/lib.rs:339-343 | sprite bit (row, col) lands on pixel p exactly when p's wrapped offsets from (Vx, Vy) are (col, row): two bits of one sprite never land on the same pixel |
| Sprite.DrawPrefixNext | chip8_core/src/lib.rs:335-347 | the blit after one more bit: the pixel under it is XOR-toggled when the bit is set, and the flag ORs in the pixel's old value |
| Sprite.DrawPrefixPixel | chip8_core/src/lib.rs:330-349 | after the first k bits, a pixel is toggled exactly when one of those bits is set over it |
| Sprite.DrawPrefixCollision | chip8_core/src/lib.rs:330-349 | after the first k bits, the flag is set exactly when one of the pixels hit so far was lit originally |
| Sprite.DrawSpriteEffect | chip8_core/src/lib.rs:330-349 | the whole blit toggles exactly the covered pixels, and the flag is set exactly when a covered pixel was lit |
| Sprite.CoversLandsAt | chip8_core/src/lib.rs:330-349 | a pixel is covered exactly when some set bit (row, col) lands on it at ((Vx + col) % 64) + 64 ((Vy + row) % 32) |
| Sprite.DrawTwiceRestores | chip8_core/src/lib.rs:330-349 | drawing the same sprite twice at the same place restores the screen; the second blit collides exactly when the first lit a dark pixel |
| Cpu.Initial | chip8_core/src/lib.rs:58-86 | the state of a new emulator has the interpreter's buffer sizes (its contents: `CpuProps.InitialState`) |
| Cpu.FetchWord | chip8_core/src/lib.rs:146-149 | the opcode's high byte is RAM[pc] and its low byte RAM[pc + 1] (big-endian) |
| Cpu.BcdDigits | chip8_core/src/lib.rs:422-436 | three decimal digits, each below 10, with 100 h + 10 t + o equal to the byte |
| Cpu.FirstPressedFrom | chip8_core/src/lib.rs:386-393 | the key-scan loop finds a pressed key with none pressed before it, and finds nothing exactly when no key from `from` on is pressed |
| Cpu.SpriteRows | chip8_core/src/lib.rs:330-333 | the n sprite rows are RAM[I], ..., RAM[I + n - 1] |
| Cpu.ExecIgnoresRandom | chip8_core/src/lib.rs:313-318 | only Cxnn depends on the random byte |
| Emulator.Emu.constructor | chip8_core/src/lib.rs:80-86 | `Emu::new` builds exactly the initial machine, with fresh buffers |
| Emulator.Emu.Reset | chip8_core/src/lib.rs:90-103 | after `reset` the state is the initial machine, apart from the pause flag, which is kept |
| Emulator.Emu.GetDisplay | chip8_core/src/lib.rs:107-109 | the display is the 64 * 32 screen, pixel for pixel |
| Emulator.Emu.Keypress | chip8_core/src/lib.rs:111-113 | only the state of key `id` changes |
| Emulator.Emu.Load | chip8_core/src/lib.rs:115-119 | the ROM is copied to 0x200 with nothing else changed (`LoadRom`), or is refused when it does not fit |
| Emulator.Emu.Push | chip8_core/src/lib.rs:123-126 | `stack[sp] := val`, then `sp += 1`; nothing else changes |
| Emulator.Emu.Pop | chip8_core/src/lib.rs:128-131 | `sp -= 1` and returns `stack[sp]`; nothing else changes |
| Emulator.Emu.Fetch | chip8_core/src/lib.rs:146-154 | returns the big-endian word at PC and advances PC by 2; faults at the end of RAM |
| Emulator.Emu.Tick | chip8_core/src/lib.rs:136-144 | one cycle changes the machine as `Cpu.Step` prescribes, returns its framebuffer flag, and changes nothing on a fault |
| Emulator.Emu.Execute | chip8_core/src/lib.rs:156-457 | one instruction changes the machine as `Cpu.Exec` prescribes, and changes nothing on a fault |
| Emulator.Emu.ExecuteControl | chip8_core/src/lib.rs:165-186 | 0000, 00E0, 00EE, 1nnn and 2nnn (and Bnnn, lines 308-311) agree with `Cpu.ExecControl` |
| Emulator.Emu.ExecuteSkip | chip8_core/src/lib.rs:187-210 | 3xnn, 4xnn and 5xyN (and 9xy0, Ex9E, ExA1) agree with `Cpu.ExecSkip` |
| Emulator.Emu.ExecuteAssign | chip8_core/src/lib.rs:211-246 | 6xnn, 7xnn and 8xy0..8xy3 (and Cxnn) agree with `Cpu.ExecAssign` |
| Emulator.Emu.ExecuteFlagged | chip8_core/src/lib.rs:247-293 | 8xy4..8xyE agree with `Cpu.ExecFlagged`: Vx is written first and VF last |
| Emulator.Emu.ExecuteMemory | chip8_core/src/lib.rs:320-452 | Dxyn, Fx33, Fx55 and Fx65 agree with `Cpu.ExecMemory` |
| Emulator.Emu.ExecuteDraw | chip8_core/src/lib.rs:320-358 | Dxyn blits the rows at I, sets VF to the collision flag and reports a framebuffer change; it faults when the rows reach past RAM |
| Emulator.Emu.ExecuteBcd | chip8_core/src/lib.rs:422-436 | Fx33 writes the three decimal digits of Vx at I; it faults when I + 2 is past RAM |
| Emulator.Emu.ExecuteMisc | chip8_core/src/lib.rs:378-420 | Fx07, Fx0A, Fx15, Fx18, Fx1E and Fx29 (and Annn, lines 303-306) agree with `Cpu.ExecMisc` |
| Emulator.Emu.DrawRows | chip8_core/src/lib.rs:330-349 | the row loop leaves exactly the screen and flag of `Sprite.DrawSprite` on the rows at I |
| Emulator.Emu.DrawRow | chip8_core/src/lib.rs:335-348 | the column loop over one row advances the blit by exactly eight bits (`Sprite.DrawPrefix`) |
| Emulator.Emu.WaitForKey | chip8_core/src/lib.rs:383-398 | Vx := the lowest pressed key; with no key pressed, PC is rewound by 2; nothing else changes |
| Emulator.Emu.StoreRegisters | chip8_core/src/lib.rs:438-444 | RAM[I..I+x] := V0..Vx; nothing else changes |
| Emulator.Emu.LoadRegisters | chip8_core/src/lib.rs:446-452 | V0..Vx := RAM[I..I+x]; nothing else changes |
| Emulator.Emu.TickTimers | chip8_core/src/lib.rs:460-478 | the timers change as `Cpu.TimerTick` prescribes, and the beep is returned |
| SaveStates.Default | desktop/src/savestates.rs:15-29 | the default save has PC, SP, I, both timers, RAM, every register and every stack slot at 0, and a dark screen |
| SaveStates.MakeSave | desktop/src/savestates.rs:31-45 | a save copies the nine saved fields of the emulator |
| SaveStates.LoadSave | desktop/src/savestates.rs:47-59 | loading overwrites exactly the nine saved fields; keys and pause flag stay |
| SaveStates.SnapshotOfRestore | desktop/src/savestates.rs:31-59 | a save taken right after a load equals the loaded save |
| SaveStates.RestoreOverwrites | desktop/src/savestates.rs:47-59 | after a load, the state depends on the earlier state only through the keys and the pause flag, both of which are kept |
| SaveStates.RestoreSnapshot | desktop/src/savestates.rs:31-59 | saving, running on, and loading the save gives back the saved machine, for any later state with the same keys and pause flag |
| SaveStates.DefaultIsNotInitial | desktop/src/savestates.rs:15-29 | loading the default save differs from a reset: PC is 0 rather than 0x200, and the font is gone from RAM |
| CpuProps.InitialState | chip8_core/src/lib.rs:58-86 | a new emulator has PC 0x200 and the font at address 0; everything else is zero, false or empty |
| CpuProps.LoadRomPlacement | chip8_core/src/lib.rs:115-119 | a ROM that fits lands at 0x200 with every other byte unchanged; one that does not fit is refused with `RomTooLarge` |
| CpuProps.StepSkip | chip8_core/src/lib.rs:187-210 | a step over any skip moves PC by 4 when its condition holds and by 2 otherwise; a key skip with Vx > 0xF faults |
| CpuProps.CallThenReturn | chip8_core/src/lib.rs:171-186 | 2nnn pushes the return address and jumps; a 00EE then restores PC and SP |
| CpuProps.StackFaults | chip8_core/src/lib.rs:123-131 | CALL faults exactly on a full stack; RET faults exactly on an empty stack or an out-of-range SP |
| CpuProps.AddRegFlag | chip8_core/src/lib.rs:248-257 | 8xy4: Vx := (Vx + Vy) mod 256, then VF := the carry; nothing else changes |
| CpuProps.SubRegFlag | chip8_core/src/lib.rs:259-268 | 8xy5: Vx := (Vx - Vy) mod 256, then VF := 1 exactly when there is no borrow |
| CpuProps.ShiftRightFlag | chip8_core/src/lib.rs:270-275 | 8xy6: Vx := Vx / 2, then VF := the bit shifted out |
| CpuProps.SubRevFlag | chip8_core/src/lib.rs:277-286 | 8xy7: Vx := (Vy - Vx) mod 256, then VF := 1 exactly when there is no borrow |
| CpuProps.ShiftLeftFlag | chip8_core/src/lib.rs:288-293 | 8xyE: Vx := 2 Vx mod 256, then VF := the bit shifted out |
| CpuProps.RegisterWrites | chip8_core/src/lib.rs:211-228 | 6xnn, 7xnn, 8xy0, Cxnn and Fx07 write Vx alone and report no framebuffer change |
| CpuProps.BitwiseWrites | chip8_core/src/lib.rs:229-246 | 8xy1, 8xy2 and 8xy3 set Vx to the OR, AND and XOR of Vx and Vy, change nothing else and report no framebuffer change |
| CpuProps.TimerWrites | chip8_core/src/lib.rs:399-408 | Fx15 and Fx18 copy Vx into the delay and sound timers respectively, nothing else |
| CpuProps.JumpEffect | chip8_core/src/lib.rs:176-180 | 1nnn sets PC to nnn; Bnnn (lines 307-311) sets PC to V0 + nnn, changes nothing else, and a target past the end of RAM faults at the next fetch |
| CpuProps.DrawInstruction | chip8_core/src/lib.rs:320-358 | Dxyn toggles exactly the covered pixels and sets VF to 1 exactly on a collision (else 0); it reports a change and faults exactly when the rows reach past RAM |
| CpuProps.DrawTwiceRestoresScreen | chip8_core/src/lib.rs:320-358 | repeating a Dxyn whose x and y are not F restores the screen |
| CpuProps.FramebufferFlag | chip8_core/src/lib.rs:162 | the framebuffer flag is true exactly for Dxyn and 00E0, and every change of the screen is flagged |
| CpuProps.NopChangesNothing | chip8_core/src/lib.rs:166 | 0000 changes nothing and reports nothing |
| CpuProps.ClearScreenAsWritten | chip8_core/src/lib.rs:168-170 | 00E0 as written: a blank screen, nothing else changed, and the framebuffer flag false |
| CpuProps.ClearScreenUnreported | chip8_core/src/lib.rs:168-170 | with a lit pixel, 00E0 as written changes the screen without reporting it, while the modelled 00E0 reports it |
| CpuProps.WaitKeyEffect | chip8_core/src/lib.rs:383-398 | Fx0A: with a key down, Vx := the lowest pressed key; with none, PC is rewound onto the instruction |
| CpuProps.StepWaitsForKey | chip8_core/src/lib.rs:383-398 | a step onto Fx0A with no key down leaves the whole machine unchanged, so the next step runs it again |
| CpuProps.BcdEffect | chip8_core/src/lib.rs:422-436 | Fx33 writes Vx / 100, (Vx / 10) % 10 and Vx % 10 at I, I+1 and I+2; nothing else changes; it faults exactly when I + 2 is past RAM |
| CpuProps.StoreEffect | chip8_core/src/lib.rs:438-444 | Fx55 writes V0..Vx at I..I+x; every other byte is kept; it faults exactly when I + x is past RAM |
| CpuProps.LoadEffect | chip8_core/src/lib.rs:446-452 | Fx65 reads V0..Vx from I..I+x; the other registers are kept; it faults exactly when I + x is past RAM |
| CpuProps.StoreThenLoad | chip8_core/src/lib.rs:438-452 | Fx65 right after Fx55 with the same x changes nothing |
| CpuProps.AddIndexEffect | chip8_core/src/lib.rs:410-414 | Fx1E: I := (I + Vx) mod 65536; VF and everything else are unchanged |
| CpuProps.FontCharEffect | chip8_core/src/lib.rs:416-420 | Fx29: I := 5 Vx; for a hex digit, this is where its five glyph bytes start in the font |
| CpuProps.PausedIsInert | chip8_core/src/lib.rs:136-139 | while paused, neither a step nor a timer tick changes anything |
| CpuProps.TimerTickEffect | chip8_core/src/lib.rs:460-478 | each timer counts down unless it is at 0, and the beep sounds exactly when the sound timer was 1 |
| CpuProps.Ticks | chip8_core/src/lib.rs:460-478 | repeated timer ticks change nothing but the two timers |
| CpuProps.SoundCountdown | chip8_core/src/lib.rs:470-475 | after k ticks the sound timer is max(sound - k, 0), and exactly one beep has sounded if 0 < sound <= k (otherwise none) |
| CpuProps.StepFetches | chip8_core/src/lib.rs:136-154 | a step fetches the big-endian opcode at PC, moves PC past it and executes what that opcode decodes to |
| CpuProps.StepLoadImm | chip8_core/src/lib.rs:211-216 | a step onto 6xnn leaves nn in Vx and PC + 2 |
| CpuProps.StepAddImm | chip8_core/src/lib.rs:217-222 | a step onto 7xnn leaves (Vx + nn) mod 256 in Vx and PC + 2 |
| CpuProps.StepLoadIndex | chip8_core/src/lib.rs:302-306 | a step onto Annn leaves nnn in I and PC + 2 |
| CpuProps.RunSmallProgram | chip8_core/src/lib.rs:136-144 | 6005 7003 A000 at 0x200 runs in three steps to V0 = 8, I = 0 and PC = 0x206, touching nothing else |
| CpuProps.LoadSmallProgram | chip8_core/src/lib.rs:115-119 | loading that program into a new emulator places it at PC |

## Left out

- Cxnn: the random byte comes from `rand::thread_rng` in the interpreter. Here it is a parameter (`rnd`) of `Exec`, `Step`, `Emu.Execute` and `Emu.Tick`.
- Fx33 computes its digits in `f32`. The model uses integer division and remainder, which give the same digits for every byte.
- Panics: a panic ends the process, so the model's fault result, with the state unchanged, stands for "the interpreter stops here".
- Partial writes before a panic are not modelled, because a panicked emulator is never used again. Dxyn may draw some rows before reading past RAM, Fx33 may write one or two digits, and Fx55/Fx65 may copy some registers.
- Debug and release builds panic on the same inputs, so the model's faults need no build switch. A call with SP at 16 indexes past the stack in both builds. A return with SP at 0 is an overflow panic in a debug build, and in a release build the wrapped SP 65535 indexes past the stack. A `u16` sum such as I + row could only wrap with I above 65520, and such an I already indexes past RAM at its first access.
- `println!` in `make_save` and `load_save`, and the commented-out trace in `fetch`, are output only and are not modelled.
- The desktop front end is not part of this model: window, rendering, audio, key mapping, configuration, themes, screenshots and the main loop (`desktop/src/app.rs`, `graphics.rs`, `audio.rs`, `input.rs`, `config.rs`, `themes.rs`, `screenshot.rs`, `ui.rs`, `main.rs`).
- Emulator.Emu.Keypress: requires `id < 16`, where the interpreter would panic on an out-of-range key index.
- Emulator.Emu.Execute: requires `2 <= PC <= 4096`, which `Fetch` always establishes before `execute` runs.
- Emulator.Emu.Push: requires a free stack slot. Its only caller, 2nnn, checks this first and faults otherwise (`StackFaults`).
- Emulator.Emu.Pop: requires `0 < SP <= 16`. Its only caller, 00EE, checks this first and faults otherwise.
- Emulator.Emu.Load: returns `RomTooLarge` where the interpreter's slice copy would panic.
- CpuProps.CallThenReturn: requires nnn + 2 <= 4096 so that the 00EE can be fetched at nnn. The 00EE itself is run at nnn + 2 with `Exec`.
- Sprite.DrawSpriteEffect: requires at most 32 sprite rows, which always holds because n is at most 15.
- Words.BitOr, Words.BitAnd, Words.BitXor and Words.ShiftRight1 carry no contract of their own. They are Dafny's bit-vector `|`, `&`, `^` and halving. `ShiftRightFlag` states the effect of 8xy6.
- Public fields: the interpreter's fields are `pub`. Writes to them from outside the listed functions (other than save-state loading) are not modelled.

## Findings

| source | as written | input that shows it | evidently intended | confidence | as-written member | corrected member |
|---|---|---|---|---|---|---|
| chip8_core/src/lib.rs:168-170 | 00E0 blanks the screen but leaves `framebuffer_modified` false, so `tick` reports no change; the front end repaints only on a reported change (desktop/src/graphics.rs:44) | any state with a lit pixel, then opcode 00E0 | report the change, as Dxyn does, so the blank screen is shown | medium; not executed | CpuProps.ClearScreenUnreported | Cpu.ExecControl |

`CpuProps.ClearScreenAsWritten` models the arm as written. `CpuProps.ClearScreenUnreported` exhibits the unreported change for any lit pixel. The model's 00E0 (`Cpu.ExecControl`, and `Emulator.Emu.ExecuteControl`) reports the change. `CpuProps.FramebufferFlag` proves that, in the corrected model, every change of the screen is reported.
