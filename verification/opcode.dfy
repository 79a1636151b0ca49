/** Instruction decoding: a 16-bit opcode is split into four nibbles and the
    nibble tuple selects one instruction, in the order of the interpreter's
    `match` (chip8_core/src/lib.rs, `execute`). The instruction set is a closed
    datatype; `Encode` is its canonical inverse. */
module Opcode {
  import opened Words

  /** A 4-bit field; as an operand it selects a register V0..VF. */
  type Nibble = n: int | 0 <= n < 0x10

  /** A 12-bit address literal `nnn`. */
  type Address = a: int | 0 <= a < 0x1000

  datatype Instr =
    | Nop                                     // 0000
    | ClearScreen                             // 00E0
    | Return                                  // 00EE
    | Jump(nnn: Address)                      // 1nnn
    | Call(nnn: Address)                      // 2nnn
    | SkipEqImm(x: Nibble, nn: u8)            // 3xnn
    | SkipNeImm(x: Nibble, nn: u8)            // 4xnn
    | SkipEqReg(x: Nibble, y: Nibble)         // 5xy_ (any last nibble)
    | LoadImm(x: Nibble, nn: u8)              // 6xnn
    | AddImm(x: Nibble, nn: u8)               // 7xnn
    | Move(x: Nibble, y: Nibble)              // 8xy0
    | Or(x: Nibble, y: Nibble)                // 8xy1
    | And(x: Nibble, y: Nibble)               // 8xy2
    | Xor(x: Nibble, y: Nibble)               // 8xy3
    | AddReg(x: Nibble, y: Nibble)            // 8xy4
    | SubReg(x: Nibble, y: Nibble)            // 8xy5
    | ShiftRight(x: Nibble, y: Nibble)        // 8xy6 (y unused)
    | SubRev(x: Nibble, y: Nibble)            // 8xy7
    | ShiftLeft(x: Nibble, y: Nibble)         // 8xyE (y unused)
    | SkipNeReg(x: Nibble, y: Nibble)         // 9xy0
    | LoadIndex(nnn: Address)                 // Annn
    | JumpOffset(nnn: Address)                // Bnnn
    | Random(x: Nibble, nn: u8)               // Cxnn
    | Draw(x: Nibble, y: Nibble, n: Nibble)   // Dxyn
    | SkipKey(x: Nibble)                      // Ex9E
    | SkipNotKey(x: Nibble)                   // ExA1
    | GetDelay(x: Nibble)                     // Fx07
    | WaitKey(x: Nibble)                      // Fx0A
    | SetDelay(x: Nibble)                     // Fx15
    | SetSound(x: Nibble)                     // Fx18
    | AddIndex(x: Nibble)                     // Fx1E
    | FontChar(x: Nibble)                     // Fx29
    | Bcd(x: Nibble)                          // Fx33
    | StoreRegs(x: Nibble)                    // Fx55
    | LoadRegs(x: Nibble)                     // Fx65

  /** The four nibbles of an opcode, most significant first. */
  datatype Nibbles = Nibbles(d1: Nibble, d2: Nibble, d3: Nibble, d4: Nibble)

  /** The masks-and-shifts split `(op & 0xF000) >> 12` .. `op & 0x000F`:
      no bit of the opcode is lost. */
  function Split(op: u16): (f: Nibbles)
    ensures op as int == 0x1000 * f.d1 + 0x100 * f.d2 + 0x10 * f.d3 + f.d4
  {
    var w := op as int;
    var low12 := w % 0x1000;  // op & 0x0FFF
    var low8 := low12 % 0x100;  // op & 0x00FF
    Nibbles(w / 0x1000, low12 / 0x100, low8 / 0x10, low8 % 0x10)
  }

  /** The opcode whose nibbles are `f`. */
  function Join(f: Nibbles): u16
  {
    (0x1000 * f.d1 + 0x100 * f.d2 + 0x10 * f.d3 + f.d4) as u16
  }

  /** The nibbles of a 12-bit address `nnn`, taken as the low three nibbles. */
  function AddressNibbles(d1: Nibble, nnn: Address): Nibbles
  {
    Nibbles(d1, nnn / 0x100, (nnn / 0x10) % 0x10, nnn % 0x10)
  }

  /** The nibbles of a byte `nn`, taken as the low two nibbles. */
  function ByteNibbles(d1: Nibble, x: Nibble, nn: u8): Nibbles
  {
    Nibbles(d1, x, nn as int / 0x10, nn as int % 0x10)
  }

  /** The arm of `execute` that an opcode selects, or None for the
      `unimplemented!` arm. Arms are tried in the source's order. */
  function Decode(op: u16): Option<Instr>
  {
    DecodeNibbles(Split(op))
  }

  /** Dispatch on the nibble tuple `(d1, d2, d3, d4)`, grouped by the leading
      nibble; within a group the arms keep the source's order. `nn`
      (`op & 0xFF`) and `nnn` (`op & 0xFFF`) are the low two and three
      nibbles. */
  function DecodeNibbles(f: Nibbles): Option<Instr>
  {
    var x, y, n := f.d2, f.d3, f.d4;
    var nn := (0x10 * f.d3 + f.d4) as u8;
    var nnn := 0x100 * f.d2 + 0x10 * f.d3 + f.d4;
    match f.d1
    case 0 => DecodeSystem(x, y, n)
    case 1 => Some(Jump(nnn))
    case 2 => Some(Call(nnn))
    case 3 => Some(SkipEqImm(x, nn))
    case 4 => Some(SkipNeImm(x, nn))
    case 5 => Some(SkipEqReg(x, y))
    case 6 => Some(LoadImm(x, nn))
    case 7 => Some(AddImm(x, nn))
    case 8 => DecodeArith(x, y, n)
    case 9 => if n == 0 then Some(SkipNeReg(x, y)) else None
    case 0xA => Some(LoadIndex(nnn))
    case 0xB => Some(JumpOffset(nnn))
    case 0xC => Some(Random(x, nn))
    case 0xD => Some(Draw(x, y, n))
    case 0xE => DecodeKey(x, y, n)
    case _ => DecodeMisc(x, y, n)  // 0xF
  }

  /** 0x__: only 0000, 00E0 and 00EE are implemented. */
  function DecodeSystem(x: Nibble, y: Nibble, n: Nibble): Option<Instr>
  {
    if x != 0 then None
    else if y == 0 && n == 0 then Some(Nop)
    else if y == 0xE && n == 0 then Some(ClearScreen)
    else if y == 0xE && n == 0xE then Some(Return)
    else None
  }

  /** 8xyN: N selects the operation; 8 to D and F are not implemented. */
  function DecodeArith(x: Nibble, y: Nibble, n: Nibble): Option<Instr>
  {
    match n
    case 0 => Some(Move(x, y))
    case 1 => Some(Or(x, y))
    case 2 => Some(And(x, y))
    case 3 => Some(Xor(x, y))
    case 4 => Some(AddReg(x, y))
    case 5 => Some(SubReg(x, y))
    case 6 => Some(ShiftRight(x, y))
    case 7 => Some(SubRev(x, y))
    case 0xE => Some(ShiftLeft(x, y))
    case _ => None
  }

  /** Ex9E and ExA1. */
  function DecodeKey(x: Nibble, y: Nibble, n: Nibble): Option<Instr>
  {
    if y == 9 && n == 0xE then Some(SkipKey(x))
    else if y == 0xA && n == 1 then Some(SkipNotKey(x))
    else None
  }

  /** Fx07 .. Fx65. */
  function DecodeMisc(x: Nibble, y: Nibble, n: Nibble): Option<Instr>
  {
    if y == 0 && n == 7 then Some(GetDelay(x))
    else if y == 0 && n == 0xA then Some(WaitKey(x))
    else if y == 1 && n == 5 then Some(SetDelay(x))
    else if y == 1 && n == 8 then Some(SetSound(x))
    else if y == 1 && n == 0xE then Some(AddIndex(x))
    else if y == 2 && n == 9 then Some(FontChar(x))
    else if y == 3 && n == 3 then Some(Bcd(x))
    else if y == 5 && n == 5 then Some(StoreRegs(x))
    else if y == 6 && n == 5 then Some(LoadRegs(x))
    else None
  }

  /** The canonical opcode of an instruction (5xy_ is written 5xy0). */
  function Encode(ins: Instr): u16
  {
    Join(EncodeNibbles(ins))
  }

  /** The nibbles of the canonical opcode. */
  function EncodeNibbles(ins: Instr): Nibbles
  {
    match ins
    case Nop => Nibbles(0, 0, 0, 0)
    case ClearScreen => Nibbles(0, 0, 0xE, 0)
    case Return => Nibbles(0, 0, 0xE, 0xE)
    case Jump(nnn) => AddressNibbles(1, nnn)
    case Call(nnn) => AddressNibbles(2, nnn)
    case SkipEqImm(x, nn) => ByteNibbles(3, x, nn)
    case SkipNeImm(x, nn) => ByteNibbles(4, x, nn)
    case SkipEqReg(x, y) => Nibbles(5, x, y, 0)
    case LoadImm(x, nn) => ByteNibbles(6, x, nn)
    case AddImm(x, nn) => ByteNibbles(7, x, nn)
    case Move(x, y) => Nibbles(8, x, y, 0)
    case Or(x, y) => Nibbles(8, x, y, 1)
    case And(x, y) => Nibbles(8, x, y, 2)
    case Xor(x, y) => Nibbles(8, x, y, 3)
    case AddReg(x, y) => Nibbles(8, x, y, 4)
    case SubReg(x, y) => Nibbles(8, x, y, 5)
    case ShiftRight(x, y) => Nibbles(8, x, y, 6)
    case SubRev(x, y) => Nibbles(8, x, y, 7)
    case ShiftLeft(x, y) => Nibbles(8, x, y, 0xE)
    case SkipNeReg(x, y) => Nibbles(9, x, y, 0)
    case LoadIndex(nnn) => AddressNibbles(0xA, nnn)
    case JumpOffset(nnn) => AddressNibbles(0xB, nnn)
    case Random(x, nn) => ByteNibbles(0xC, x, nn)
    case Draw(x, y, n) => Nibbles(0xD, x, y, n)
    case SkipKey(x) => Nibbles(0xE, x, 9, 0xE)
    case SkipNotKey(x) => Nibbles(0xE, x, 0xA, 1)
    case GetDelay(x) => Nibbles(0xF, x, 0, 7)
    case WaitKey(x) => Nibbles(0xF, x, 0, 0xA)
    case SetDelay(x) => Nibbles(0xF, x, 1, 5)
    case SetSound(x) => Nibbles(0xF, x, 1, 8)
    case AddIndex(x) => Nibbles(0xF, x, 1, 0xE)
    case FontChar(x) => Nibbles(0xF, x, 2, 9)
    case Bcd(x) => Nibbles(0xF, x, 3, 3)
    case StoreRegs(x) => Nibbles(0xF, x, 5, 5)
    case LoadRegs(x) => Nibbles(0xF, x, 6, 5)
  }

  /** Splitting an opcode and joining its nibbles are inverse. */
  lemma SplitJoin(f: Nibbles)
    ensures Split(Join(f)) == f
  {
    var low8 := 0x10 * f.d3 + f.d4;
    var low12 := 0x100 * f.d2 + low8;
    var w := 0x1000 * f.d1 + low12;
    assert w / 0x1000 == f.d1 && w % 0x1000 == low12;
    assert low12 / 0x100 == f.d2 && low12 % 0x100 == low8;
    assert low8 / 0x10 == f.d3 && low8 % 0x10 == f.d4;
  }

  /** Every instruction is recovered from its own nibbles. */
  lemma DecodeEncodeNibbles(ins: Instr)
    ensures DecodeNibbles(EncodeNibbles(ins)) == Some(ins)
  {
    match ins
    case Jump(nnn) => DecodeEncodeAddress(ins);
    case Call(nnn) => DecodeEncodeAddress(ins);
    case LoadIndex(nnn) => DecodeEncodeAddress(ins);
    case JumpOffset(nnn) => DecodeEncodeAddress(ins);
    case SkipEqImm(_, nn) => DecodeEncodeByte(ins);
    case SkipNeImm(_, nn) => DecodeEncodeByte(ins);
    case LoadImm(_, nn) => DecodeEncodeByte(ins);
    case AddImm(_, nn) => DecodeEncodeByte(ins);
    case Random(_, nn) => DecodeEncodeByte(ins);
    case _ =>
  }

  /** `DecodeEncodeNibbles` for the instructions with an address operand. */
  lemma DecodeEncodeAddress(ins: Instr)
    requires ins.Jump? || ins.Call? || ins.LoadIndex? || ins.JumpOffset?
    ensures DecodeNibbles(EncodeNibbles(ins)) == Some(ins)
  {
    AddressRecomposes(ins.nnn);
  }

  /** `DecodeEncodeNibbles` for the instructions with a byte operand. */
  lemma DecodeEncodeByte(ins: Instr)
    requires ins.SkipEqImm? || ins.SkipNeImm? || ins.LoadImm? || ins.AddImm? || ins.Random?
    ensures DecodeNibbles(EncodeNibbles(ins)) == Some(ins)
  {
    ByteRecomposes(ins.nn);
  }

  /** A byte is the value of its two nibbles. */
  lemma ByteRecomposes(nn: u8)
    ensures (0x10 * (nn as int / 0x10) + nn as int % 0x10) as u8 == nn
  {
  }

  /** A 12-bit address is the value of its three nibbles. */
  lemma AddressRecomposes(nnn: Address)
    ensures 0x100 * (nnn / 0x100) + 0x10 * ((nnn / 0x10) % 0x10) + nnn % 0x10 == nnn
  {
  }

  /** Every instruction decodes back from its canonical opcode. */
  lemma DecodeEncode(ins: Instr)
    ensures Decode(Encode(ins)) == Some(ins)
  {
    SplitJoin(EncodeNibbles(ins));
    DecodeEncodeNibbles(ins);
  }

  /** The low two and three nibbles split back out of `nn` and `nnn`. */
  lemma LowNibbles(d2: Nibble, d3: Nibble, d4: Nibble)
    ensures (0x10 * d3 + d4) / 0x10 == d3 && (0x10 * d3 + d4) % 0x10 == d4
    ensures var nnn := 0x100 * d2 + 0x10 * d3 + d4;
      nnn / 0x100 == d2 && (nnn / 0x10) % 0x10 == d3 && nnn % 0x10 == d4
  {
    var nn := 0x10 * d3 + d4;
    DigitSplit(d3, d4);
    DigitSplit(0x10 * d2 + d3, d4);
    DigitSplit(d2, d3);
    assert 0x100 * d2 + nn == 0x10 * (0x10 * d2 + d3) + d4;
    assert (0x100 * d2 + nn) / 0x100 == d2 by { PageSplit(d2, nn); }
  }

  /** Base-16 digit arithmetic: q * 16 + r splits back into q and r. */
  lemma DigitSplit(q: nat, r: Nibble)
    ensures (0x10 * q + r) / 0x10 == q && (0x10 * q + r) % 0x10 == r
  {
  }

  /** Base-256 digit arithmetic: q * 256 + r splits back into q and r. */
  lemma PageSplit(q: nat, r: nat)
    requires r < 0x100
    ensures (0x100 * q + r) / 0x100 == q
  {
  }

  /** Nibble-level form of `EncodeDecode`. */
  lemma EncodeDecodeNibbles(f: Nibbles)
    requires DecodeNibbles(f).Some?
    ensures EncodeNibbles(DecodeNibbles(f).value) == if f.d1 == 5 then f.(d4 := 0) else f
  {
    if f.d1 < 8 {
      EncodeDecodeLow(f);
    } else if f.d1 == 8 {
      assert EncodeNibbles(DecodeArith(f.d2, f.d3, f.d4).value) == f;
    } else if f.d1 < 0xE {
      EncodeDecodeMid(f);
    } else if f.d1 == 0xE {
      assert EncodeNibbles(DecodeKey(f.d2, f.d3, f.d4).value) == f;
    } else {
      assert EncodeNibbles(DecodeMisc(f.d2, f.d3, f.d4).value) == f;
    }
  }

  /** `EncodeDecodeNibbles` for leading nibbles 0 to 7. */
  lemma EncodeDecodeLow(f: Nibbles)
    requires f.d1 < 8 && DecodeNibbles(f).Some?
    ensures EncodeNibbles(DecodeNibbles(f).value) == if f.d1 == 5 then f.(d4 := 0) else f
  {
    LowNibbles(f.d2, f.d3, f.d4);
  }

  /** `EncodeDecodeNibbles` for leading nibbles 9 to D. */
  lemma EncodeDecodeMid(f: Nibbles)
    requires 9 <= f.d1 < 0xE && DecodeNibbles(f).Some?
    ensures EncodeNibbles(DecodeNibbles(f).value) == f
  {
    LowNibbles(f.d2, f.d3, f.d4);
  }

  /** Every opcode that decodes is the canonical encoding of its instruction,
      except that 5xyN is accepted for every N and re-encodes as 5xy0. */
  lemma EncodeDecode(op: u16)
    requires Decode(op).Some?
    ensures Encode(Decode(op).value) ==
              if Split(op).d1 == 5 then op - op % 0x10 else op
  {
    var f := Split(op);
    EncodeDecodeNibbles(f);
    assert op as int % 0x10 == f.d4;
  }

  /** The last nibble of a 5xyN opcode is ignored. */
  lemma SkipEqRegAnyLastNibble(x: Nibble, y: Nibble, n: Nibble)
    ensures Decode(Join(Nibbles(5, x, y, n))) == Some(SkipEqReg(x, y))
  {
    SplitJoin(Nibbles(5, x, y, n));
  }

  /** Groups of instructions by what they act on. */
  predicate IsControl(ins: Instr)
  {
    ins.Nop? || ins.ClearScreen? || ins.Return? || ins.Jump? || ins.Call? || ins.JumpOffset?
  }

  predicate IsSkip(ins: Instr)
  {
    ins.SkipEqImm? || ins.SkipNeImm? || ins.SkipEqReg? || ins.SkipNeReg? || ins.SkipKey? || ins.SkipNotKey?
  }

  /** Register writes that leave VF alone (unless x is F). */
  predicate IsAssign(ins: Instr)
  {
    ins.LoadImm? || ins.AddImm? || ins.Move? || ins.Or? || ins.And? || ins.Xor? || ins.Random?
  }

  /** Register arithmetic that reports in VF. */
  predicate IsFlagged(ins: Instr)
  {
    ins.AddReg? || ins.SubReg? || ins.ShiftRight? || ins.SubRev? || ins.ShiftLeft?
  }

  predicate IsMemory(ins: Instr)
  {
    ins.Draw? || ins.Bcd? || ins.StoreRegs? || ins.LoadRegs?
  }
}
