/** Bit fields of a 32-bit Emotion Engine COP2 (VU0 macro mode) instruction word. */
module Words {

  /** A 32-bit instruction word, as the host reads it from memory. */
  type Word = bv32

  /** Bits 31..25 of every COP2 macro-mode computational instruction. */
  const Cop2Prefix: bv32 := 0x25

  /** The word belongs to the extension: its top seven bits are 0b0100101. */
  predicate IsCop2Word(w: Word): (claimed: bool)
    ensures claimed <==> 0x4A00_0000 <= w <= 0x4BFF_FFFF
  {
    w >> 0x19 == Cop2Prefix
  }

  /** Bits 5..2 all set select the 11-bit opcode field; any other value the 6-bit one. */
  predicate HasWideOpcode(w: Word): (wide: bool)
    ensures wide <==> w & 0x3F >= 0x3C
  {
    w & 0x3C == 0x3C
  }

  /** An opcode some word can carry: it fits 11 bits and is either below 0x3C (a 6-bit
      opcode whose bits 5..2 are not all set) or has bits 5..2 all set, that is, its
      low six bits are 0x3C or more. */
  predicate Encodable(op: int)
  {
    0 <= op < 0x800 && (op < 0x3C || op % 0x40 >= 0x3C)
  }

  /** The same condition on an opcode held as bits. */
  predicate EncodableBits(o: bv32)
  {
    o < 0x800 && (o < 0x3C || o & 0x3C == 0x3C)
  }

  /** The opcode field of a word, as bits: the low eleven bits when bits 5..2 are all
      set, the low six bits otherwise. */
  function OpcodeField(w: Word): (o: bv32)
    ensures EncodableBits(o)
    ensures HasWideOpcode(w) <==> o >= 0x3C
  {
    if HasWideOpcode(w) then w & 0x7FF else w & 0x3F
  }

  /** The opcode a word carries. The two widths do not overlap: a 6-bit opcode is
      always below 0x3C and an 11-bit one never is. */
  function OpcodeOf(w: Word): (op: int)
    ensures Encodable(op)
    ensures HasWideOpcode(w) <==> op >= 0x3C
  {
    var o := OpcodeField(w);
    LowSixBits(o);
    o as int
  }

  /** Bits 5..2 of an 11-bit value are all set exactly when its low six bits, as a
      number, are 0x3C or more. */
  lemma LowSixBits(o: bv32)
    requires o < 0x800
    ensures (o & 0x3C == 0x3C) <==> (o as int) % 0x40 >= 0x3C
  {
  }

  /** An 11-bit number as bits, built one increment at a time. */
  function ToBits(op: int): (o: bv32)
    requires 0 <= op < 0x800
    ensures o as int == op
    decreases op
  {
    if op == 0 then 0 else var p := ToBits(op - 1); Increment(p); p + 1
  }

  lemma Increment(p: bv32)
    requires p < 0x7FF
    ensures (p + 1) as int == p as int + 1
  {
  }

  /** ft: bits 20..16. */
  function Ft(w: Word): (r: bv16)
    ensures r < 32
  {
    ((w >> 0x10) & 0x1F) as bv16
  }

  /** fs: bits 15..11. */
  function Fs(w: Word): (r: bv16)
    ensures r < 32
  {
    ((w >> 0xB) & 0x1F) as bv16
  }

  /** fd, or the 5-bit immediate of VIADDI: bits 10..6. */
  function Fd(w: Word): (r: bv16)
    ensures r < 32
  {
    ((w >> 6) & 0x1F) as bv16
  }

  /** The lane selector of ft: bits 24..23. */
  function Ftf(w: Word): (r: bv16)
    ensures r < 4
  {
    ((w >> 0x17) & 3) as bv16
  }

  /** The lane selector of fs: bits 22..21. */
  function Fsf(w: Word): (r: bv16)
    ensures r < 4
  {
    ((w >> 0x15) & 3) as bv16
  }

  /** The per-lane destination mask: bits 24..21, x in bit 3 down to w in bit 0. The two
      lane selectors are its upper and lower halves. */
  function DestMask(w: Word): (m: bv32)
    ensures m < 16
    ensures (m >> 2) as bv16 == Ftf(w) && (m & 3) as bv16 == Fsf(w)
  {
    (w >> 0x15) & 0xF
  }

  /** A register number n (below 32) with a lane selector f (below 4) in bits 9..8. */
  function PackField(n: bv16, f: bv16): (r: bv16)
    requires n < 32 && f < 4
    ensures r & 0xFF == n && r >> 8 == f
    ensures r < 0x400
  {
    n | (f << 8)
  }

  /** An encoder for the word layout, independent of the decoder: prefix, destination
      mask, ft, fs, and either fd beside a 6-bit opcode or an 11-bit opcode. */
  function Assemble(o: bv32, dest: bv32, ft: bv32, fs: bv32, fd: bv32): Word
    requires EncodableBits(o) && dest < 16 && ft < 32 && fs < 32 && fd < 32
  {
    var low: bv32 := if o < 0x3C then (fd << 6) | o else o;
    (Cop2Prefix << 0x19) | (dest << 0x15) | (ft << 0x10) | (fs << 0xB) | low
  }

  /** An assembled word is claimed by the extension and carries the opcode put in it. */
  lemma AssembleOpcode(o: bv32, dest: bv32, ft: bv32, fs: bv32, fd: bv32)
    requires EncodableBits(o) && dest < 16 && ft < 32 && fs < 32 && fd < 32
    ensures IsCop2Word(Assemble(o, dest, ft, fs, fd))
    ensures OpcodeField(Assemble(o, dest, ft, fs, fd)) == o
  {
  }

  /** An assembled word carries the destination mask put in it. */
  lemma AssembleDest(o: bv32, dest: bv32, ft: bv32, fs: bv32, fd: bv32)
    requires EncodableBits(o) && dest < 16 && ft < 32 && fs < 32 && fd < 32
    ensures DestMask(Assemble(o, dest, ft, fs, fd)) == dest
  {
  }

  /** An assembled word carries the ft and fs fields put in it; fd survives only beside
      a 6-bit opcode, since an 11-bit opcode covers bits 10..6. */
  lemma AssembleRegisters(o: bv32, dest: bv32, ft: bv32, fs: bv32, fd: bv32)
    requires EncodableBits(o) && dest < 16 && ft < 32 && fs < 32 && fd < 32
    ensures Ft(Assemble(o, dest, ft, fs, fd)) as bv32 == ft
    ensures Fs(Assemble(o, dest, ft, fs, fd)) as bv32 == fs
    ensures o < 0x3C ==> Fd(Assemble(o, dest, ft, fs, fd)) as bv32 == fd
  {
  }

  /** Conversely, every extension word is the assembly of the fields decoded from it:
      the decoder loses no bit of a COP2 word. */
  lemma DecodedFieldsAssemble(w: Word)
    requires IsCop2Word(w)
    ensures w == Assemble(OpcodeField(w), DestMask(w), Ft(w) as bv32, Fs(w) as bv32, Fd(w) as bv32)
  {
  }

  /** Every encodable opcode is the opcode of some extension word, with any destination
      mask and registers around it. */
  lemma EncodableReachable(op: int, dest: bv32, ft: bv32, fs: bv32, fd: bv32)
    requires Encodable(op) && dest < 16 && ft < 32 && fs < 32 && fd < 32
    ensures EncodableBits(ToBits(op))
    ensures var w := Assemble(ToBits(op), dest, ft, fs, fd);
      IsCop2Word(w) && OpcodeOf(w) == op && DestMask(w) == dest
  {
    var o := ToBits(op);
    ToBitsEncodable(op);
    AssembleOpcode(o, dest, ft, fs, fd);
    AssembleDest(o, dest, ft, fs, fd);
    var w := Assemble(o, dest, ft, fs, fd);
    assert OpcodeOf(w) == OpcodeField(w) as int == o as int;
  }

  /** The bits of an encodable opcode meet the bit-level condition. */
  lemma ToBitsEncodable(op: int)
    requires Encodable(op)
    ensures EncodableBits(ToBits(op))
  {
    var o := ToBits(op);
    assert o < 0x800;
    LowSixBits(o);
  }
}
