/** The instruction decoder: a 16-bit word split into its CHIP-8 fields. */
module Instr {
  import opened Arch

  /**
   * A decoded word: the class `c` (bits 15-12), the register selectors `x`
   * (bits 11-8) and `y` (bits 7-4), the nibble `n` (bits 3-0), the byte
   * `nn` (bits 7-0) and the address `nnn` (bits 11-0).
   */
  datatype Instr = Instr(opcode: uint16, c: uint8, x: uint8, y: uint8, n: uint8, nn: uint8, nnn: uint16)

  /**
   * `Instr::new`. Every word decodes. A mask followed by a right shift of a
   * non-negative value is written as the equal division and remainder by
   * powers of two.
   */
  function New(opcode: uint16): (ins: Instr)
    ensures ins.opcode == opcode
    ensures ins.c < 16 && ins.x < 16 && ins.y < 16 && ins.n < 16
    ensures ins.nn as int == 16 * ins.y as int + ins.n as int
    ensures ins.nnn as int == 256 * ins.x as int + ins.nn as int
    ensures 4096 * ins.c as int + ins.nnn as int == opcode as int
  {
    var w := opcode as int;
    // The top nibble and the low 12 bits.
    var c, nnn := w / 0x1000, w % 0x1000;
    // Bits 11-8 and the low byte.
    var x, nn := nnn / 0x100, nnn % 0x100;
    // Bits 7-4 and bits 3-0.
    var y, n := nn / 0x10, nn % 0x10;
    Instr(opcode, c as uint8, x as uint8, y as uint8, n as uint8, nn as uint8, nnn as uint16)
  }

  /** The class is the word's top nibble, `n` its low nibble and `nn` its low byte. */
  lemma Fields(w: uint16)
    ensures New(w).c as int == w as int / 0x1000
    ensures New(w).nn as int == w as int % 0x100
    ensures New(w).n as int == w as int % 0x10
  {
    var ins := New(w);
    assert ins.nn as int == w as int % 0x1000 % 0x100;
    assert ins.n as int == w as int % 0x1000 % 0x100 % 0x10;
  }

  /** `ins` is what the decoder yields for its own word. */
  predicate Decoded(ins: Instr) {
    ins == New(ins.opcode)
  }

  /** The word whose nibbles, from the most significant, are `c`, `x`, `y`, `n`. */
  function Encode(c: uint8, x: uint8, y: uint8, n: uint8): (w: uint16)
    requires c < 16 && x < 16 && y < 16 && n < 16
    ensures w as int == 4096 * c as int + 256 * x as int + 16 * y as int + n as int
  {
    (c as uint16) * 0x1000 + (x as uint16) * 0x100 + (y as uint16) * 0x10 + n as uint16
  }

  /** Decoding recovers the four nibbles a word was built from. */
  lemma DecodeEncode(c: uint8, x: uint8, y: uint8, n: uint8)
    requires c < 16 && x < 16 && y < 16 && n < 16
    ensures var ins := New(Encode(c, x, y, n));
            ins.c == c && ins.x == x && ins.y == y && ins.n == n
  {
  }

  /** Re-encoding the nibbles of a decoded word gives the word back. */
  lemma EncodeDecode(w: uint16)
    ensures var ins := New(w); Encode(ins.c, ins.x, ins.y, ins.n) == w
  {
  }
}
