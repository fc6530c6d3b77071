/** The 23 operand layouts of the COP2 macro-mode instructions, the register class
    attached to each operand slot, and the host instruction record they fill in. */
module Fields {
  import opened Words
  import opened Wrappers

  /** A layout id: which of the 23 field decoders handles an instruction. */
  type Layout = x: int | 0 <= x < 23

  /** Register classes, as stored in an operand's specval. */
  const VfReg := 0
  const ViReg := 1
  const VfRegWithF := 2
  const CtlReg := 3

  /** Character codes of the synthetic control registers: accumulator, I, Q and R. */
  const AccCode: bv16 := 0x41
  const ICode: bv16 := 0x49
  const QCode: bv16 := 0x51
  const RCode: bv16 := 0x52

  /** The register classes of each layout's operands, slot by slot. Layout 15 lists
      two classes for its three operands: its immediate gets none. */
  function RegTypes(dt: Layout): (regs: seq<int>)
    ensures |regs| <= 3 && (|regs| == 0 <==> dt == 0)
    ensures forall k :: 0 <= k < |regs| ==> regs[k] in {VfReg, ViReg, VfRegWithF, CtlReg}
  {
    match dt
    case 0 => []
    case 1 => [VfReg, VfReg]
    case 2 => [VfReg, VfReg, VfReg]
    case 3 => [VfReg, VfReg, CtlReg]
    case 4 => [VfReg, VfReg, CtlReg]
    case 5 => [CtlReg, VfReg, VfReg]
    case 6 => [CtlReg, VfReg, CtlReg]
    case 7 => [CtlReg, VfReg, CtlReg]
    case 8 => [CtlReg, VfReg, VfReg]
    case 9 => [CtlReg, VfReg, VfReg]
    case 10 => [VfReg, VfReg, VfReg]
    case 11 => [VfReg, VfReg]
    case 12 => [CtlReg, VfRegWithF, VfRegWithF]
    case 13 => [CtlReg, VfRegWithF]
    case 14 => [ViReg, ViReg, ViReg]
    case 15 => [ViReg, ViReg]
    case 16 => [VfReg, VfReg]
    case 17 => [VfReg, ViReg]
    case 18 => [ViReg, VfRegWithF]
    case 19 => [VfReg, ViReg]
    case 20 => [ViReg, ViReg]
    case 21 => [CtlReg, VfRegWithF]
    case 22 => [VfReg, CtlReg]
  }

  /** Where an operand comes from in the word. */
  datatype Source =
    | FtField             // bits 20..16
    | FsField             // bits 15..11
    | FdField             // bits 10..6
    | FsLane              // fs with the lane selector of bits 22..21 in bits 9..8
    | FtLane              // ft with the lane selector of bits 24..23 in bits 9..8
    | Control(code: bv16) // a synthetic register named by its letter
    | Imm5                // the unsigned immediate of bits 10..6

  /** Operand sources of each layout, destination first. */
  function LayoutSources(dt: Layout): seq<Source>
  {
    match dt
    case 0 => []
    case 1 => [FtField, FsField]
    case 2 => [FdField, FsField, FtField]
    case 3 => [FdField, FsField, Control(ICode)]
    case 4 => [FdField, FsField, Control(QCode)]
    case 5 => [Control(AccCode), FsField, FtField]
    case 6 => [Control(AccCode), FsField, Control(ICode)]
    case 7 => [Control(AccCode), FsField, Control(QCode)]
    case 8 => [Control(AccCode), FsField, FtField]
    case 9 => [Control(AccCode), FsField, FtField]
    case 10 => [FdField, FsField, FtField]
    case 11 => [FsField, FtField]
    case 12 => [Control(QCode), FsLane, FtLane]
    case 13 => [Control(QCode), FtLane]
    case 14 => [FdField, FsField, FtField]
    case 15 => [FtField, FsField, Imm5]
    case 16 => [FtField, FsField]
    case 17 => [FtField, FsField]
    case 18 => [FtField, FsLane]
    case 19 => [FsField, FtField]
    case 20 => [FtField, FsField]
    case 21 => [Control(RCode), FsLane]
    case 22 => [FtField, Control(RCode)]
  }

  /** The layout takes an operand from bits 10..6, which an 11-bit opcode occupies. */
  predicate ReadsBitsTenToSix(dt: Layout)
  {
    dt == 2 || dt == 3 || dt == 4 || dt == 10 || dt == 14 || dt == 15
  }

  /** A register class suits an operand source: plain fields are numbered float or
      integer registers, lane-selected fields are float registers with a lane, letters
      are control registers; an immediate takes no class. */
  predicate ClassFits(c: int, s: Source)
  {
    match s
    case FtField | FsField | FdField => c == VfReg || c == ViReg
    case FsLane | FtLane => c == VfRegWithF
    case Control(_) => c == CtlReg
    case Imm5 => false
  }

  /** The value a source puts in an operand's register field, and what it looks like:
      a register number below 32, a packed register and lane, or a control letter. */
  function SourceValue(s: Source, w: Word): (r: bv16)
    requires !s.Imm5?
    ensures (s.FtField? || s.FsField? || s.FdField?) ==> r < 32
    ensures (s.FsLane? || s.FtLane?) ==> r & 0xFF < 32 && r >> 8 < 4
    ensures s.FsLane? ==> r & 0xFF == Fs(w) && r >> 8 == Fsf(w)
    ensures s.FtLane? ==> r & 0xFF == Ft(w) && r >> 8 == Ftf(w)
    ensures s.Control? ==> r == s.code
  {
    match s
    case FtField => Ft(w)
    case FsField => Fs(w)
    case FdField => Fd(w)
    case FsLane => PackField(Fs(w), Fsf(w))
    case FtLane => PackField(Ft(w), Ftf(w))
    case Control(code) => code
  }

  /** Operand types an instruction slot can hold. */
  datatype OpType = NoOperand | RegOperand | ImmOperand | OtherOperand

  /** One operand slot of the host's instruction record. */
  datatype Slot = Slot(kind: OpType, reg: bv16, value: bv32, specval: int)

  /** The host's instruction record: instruction type, length in bytes, and the first
      three operand slots. */
  class Insn {
    var itype: int
    var size: int
    var op1: Slot
    var op2: Slot
    var op3: Slot

    constructor (itype: int, size: int, op1: Slot, op2: Slot, op3: Slot)
      ensures this.itype == itype && this.size == size
      ensures this.op1 == op1 && this.op2 == op2 && this.op3 == op3
    {
      this.itype := itype;
      this.size := size;
      this.op1 := op1;
      this.op2 := op2;
      this.op3 := op3;
    }
  }

  /** A slot after a source has filled it: the immediate sets the value, every other
      source the register field; the register class is left alone. */
  function Fill(slot: Slot, s: Source, w: Word): Slot
  {
    if s.Imm5? then slot.(kind := ImmOperand, value := Fd(w) as bv32)
    else slot.(kind := RegOperand, reg := SourceValue(s, w))
  }

  /** Slot k (0, 1 or 2) after the layout's field decoder ran: filled from the k-th
      source when there is one, marked empty in slot 0 of layout 0, untouched otherwise. */
  function Filled(slot: Slot, dt: Layout, k: nat, w: Word): Slot
  {
    var src := LayoutSources(dt);
    if k < |src| then Fill(slot, src[k], w)
    else if dt == 0 && k == 0 then slot.(kind := NoOperand)
    else slot
  }

  /** Slot k after the register classes were attached: only layouts with two or three
      classes attach them, to the slots they list. */
  function Classified(slot: Slot, dt: Layout, k: nat): Slot
  {
    var regs := RegTypes(dt);
    if (|regs| == 2 && k < 2) || (|regs| == 3 && k < 3) then slot.(specval := regs[k])
    else slot
  }

  /** Writes two register operands. */
  method SetRegs2(insn: Insn, a: bv16, b: bv16)
    modifies insn
    ensures insn.op1 == old(insn.op1).(kind := RegOperand, reg := a)
    ensures insn.op2 == old(insn.op2).(kind := RegOperand, reg := b)
    ensures insn.op3 == old(insn.op3)
    ensures insn.itype == old(insn.itype) && insn.size == old(insn.size)
  {
    insn.op1 := insn.op1.(kind := RegOperand, reg := a);
    insn.op2 := insn.op2.(kind := RegOperand, reg := b);
  }

  /** Writes three register operands. */
  method SetRegs3(insn: Insn, a: bv16, b: bv16, c: bv16)
    modifies insn
    ensures insn.op1 == old(insn.op1).(kind := RegOperand, reg := a)
    ensures insn.op2 == old(insn.op2).(kind := RegOperand, reg := b)
    ensures insn.op3 == old(insn.op3).(kind := RegOperand, reg := c)
    ensures insn.itype == old(insn.itype) && insn.size == old(insn.size)
  {
    insn.op1 := insn.op1.(kind := RegOperand, reg := a);
    insn.op2 := insn.op2.(kind := RegOperand, reg := b);
    insn.op3 := insn.op3.(kind := RegOperand, reg := c);
  }

  /** The field decoder of layout dt: extracts the fields of the word and writes the
      operands in the order the layout's source list gives. */
  method DecodeType(insn: Insn, dt: Layout, w: Word)
    modifies insn
    ensures insn.op1 == Filled(old(insn.op1), dt, 0, w)
    ensures insn.op2 == Filled(old(insn.op2), dt, 1, w)
    ensures insn.op3 == Filled(old(insn.op3), dt, 2, w)
    ensures insn.itype == old(insn.itype) && insn.size == old(insn.size)
  {
    match dt {
      case 0 => DecodeType0(insn, w);
      case 1 => DecodeType1(insn, w);
      case 2 => DecodeType2(insn, w);
      case 3 => DecodeType3(insn, w);
      case 4 => DecodeType4(insn, w);
      case 5 => DecodeType5(insn, w);
      case 6 => DecodeType6(insn, w);
      case 7 => DecodeType7(insn, w);
      case 8 => DecodeType8(insn, w);
      case 9 => DecodeType9(insn, w);
      case 10 => DecodeType10(insn, w);
      case 11 => DecodeType11(insn, w);
      case 12 => DecodeType12(insn, w);
      case 13 => DecodeType13(insn, w);
      case 14 => DecodeType14(insn, w);
      case 15 => DecodeType15(insn, w);
      case 16 => DecodeType16(insn, w);
      case 17 => DecodeType17(insn, w);
      case 18 => DecodeType18(insn, w);
      case 19 => DecodeType19(insn, w);
      case 20 => DecodeType20(insn, w);
      case 21 => DecodeType21(insn, w);
      case 22 => DecodeType22(insn, w);
    }
  }

  /** The field decoders as written. Layout 0's decoder takes no word although the
      dispatcher passes one, and it names the operand type `o_void`; layout 15's
      decoder names `o_imm`. Neither name is imported, so both layouts raise an error
      instead of decoding (None); every other layout decodes as DecodeType does. None
      stands for the whole failed decode: the writes made before the error (the type
      set by the dispatcher, and layout 15's first two operands) are not represented. */
  function DecodeTypeAsWritten(op1: Slot, op2: Slot, op3: Slot, dt: Layout, w: Word): (r: Option<(Slot, Slot, Slot)>)
    ensures r.None? <==> dt == 0 || dt == 15
    ensures r.Some? ==> r.value.0 == Filled(op1, dt, 0, w) && r.value.1 == Filled(op2, dt, 1, w)
    ensures r.Some? ==> r.value.2 == Filled(op3, dt, 2, w)
  {
    if dt == 0 || dt == 15 then None
    else Some((Filled(op1, dt, 0, w), Filled(op2, dt, 1, w), Filled(op3, dt, 2, w)))
  }

  /** Layout 0: no operands; the first slot is marked empty. */
  method DecodeType0(insn: Insn, w: Word)
    modifies insn
    ensures insn.op1 == Filled(old(insn.op1), 0, 0, w)
    ensures insn.op2 == Filled(old(insn.op2), 0, 1, w)
    ensures insn.op3 == Filled(old(insn.op3), 0, 2, w)
    ensures insn.itype == old(insn.itype) && insn.size == old(insn.size)
  {
    insn.op1 := insn.op1.(kind := NoOperand);
  }

  /** Layout 1: ft, fs. */
  method DecodeType1(insn: Insn, w: Word)
    modifies insn
    ensures insn.op1 == Filled(old(insn.op1), 1, 0, w)
    ensures insn.op2 == Filled(old(insn.op2), 1, 1, w)
    ensures insn.op3 == Filled(old(insn.op3), 1, 2, w)
    ensures insn.itype == old(insn.itype) && insn.size == old(insn.size)
  {
    SetRegs2(insn, Ft(w), Fs(w));
  }

  /** Layout 2: fd, fs, ft. */
  method DecodeType2(insn: Insn, w: Word)
    modifies insn
    ensures insn.op1 == Filled(old(insn.op1), 2, 0, w)
    ensures insn.op2 == Filled(old(insn.op2), 2, 1, w)
    ensures insn.op3 == Filled(old(insn.op3), 2, 2, w)
    ensures insn.itype == old(insn.itype) && insn.size == old(insn.size)
  {
    SetRegs3(insn, Fd(w), Fs(w), Ft(w));
  }

  /** Layout 3: fd, fs, I. */
  method DecodeType3(insn: Insn, w: Word)
    modifies insn
    ensures insn.op1 == Filled(old(insn.op1), 3, 0, w)
    ensures insn.op2 == Filled(old(insn.op2), 3, 1, w)
    ensures insn.op3 == Filled(old(insn.op3), 3, 2, w)
    ensures insn.itype == old(insn.itype) && insn.size == old(insn.size)
  {
    SetRegs3(insn, Fd(w), Fs(w), ICode);
  }

  /** Layout 4: fd, fs, Q. */
  method DecodeType4(insn: Insn, w: Word)
    modifies insn
    ensures insn.op1 == Filled(old(insn.op1), 4, 0, w)
    ensures insn.op2 == Filled(old(insn.op2), 4, 1, w)
    ensures insn.op3 == Filled(old(insn.op3), 4, 2, w)
    ensures insn.itype == old(insn.itype) && insn.size == old(insn.size)
  {
    SetRegs3(insn, Fd(w), Fs(w), QCode);
  }

  /** Layout 5: ACC, fs, ft. */
  method DecodeType5(insn: Insn, w: Word)
    modifies insn
    ensures insn.op1 == Filled(old(insn.op1), 5, 0, w)
    ensures insn.op2 == Filled(old(insn.op2), 5, 1, w)
    ensures insn.op3 == Filled(old(insn.op3), 5, 2, w)
    ensures insn.itype == old(insn.itype) && insn.size == old(insn.size)
  {
    SetRegs3(insn, AccCode, Fs(w), Ft(w));
  }

  /** Layout 6: ACC, fs, I. */
  method DecodeType6(insn: Insn, w: Word)
    modifies insn
    ensures insn.op1 == Filled(old(insn.op1), 6, 0, w)
    ensures insn.op2 == Filled(old(insn.op2), 6, 1, w)
    ensures insn.op3 == Filled(old(insn.op3), 6, 2, w)
    ensures insn.itype == old(insn.itype) && insn.size == old(insn.size)
  {
    SetRegs3(insn, AccCode, Fs(w), ICode);
  }

  /** Layout 7: ACC, fs, Q. */
  method DecodeType7(insn: Insn, w: Word)
    modifies insn
    ensures insn.op1 == Filled(old(insn.op1), 7, 0, w)
    ensures insn.op2 == Filled(old(insn.op2), 7, 1, w)
    ensures insn.op3 == Filled(old(insn.op3), 7, 2, w)
    ensures insn.itype == old(insn.itype) && insn.size == old(insn.size)
  {
    SetRegs3(insn, AccCode, Fs(w), QCode);
  }

  /** Layout 8: ACC, fs, ft. */
  method DecodeType8(insn: Insn, w: Word)
    modifies insn
    ensures insn.op1 == Filled(old(insn.op1), 8, 0, w)
    ensures insn.op2 == Filled(old(insn.op2), 8, 1, w)
    ensures insn.op3 == Filled(old(insn.op3), 8, 2, w)
    ensures insn.itype == old(insn.itype) && insn.size == old(insn.size)
  {
    SetRegs3(insn, AccCode, Fs(w), Ft(w));
  }

  /** Layout 9: ACC, fs, ft. */
  method DecodeType9(insn: Insn, w: Word)
    modifies insn
    ensures insn.op1 == Filled(old(insn.op1), 9, 0, w)
    ensures insn.op2 == Filled(old(insn.op2), 9, 1, w)
    ensures insn.op3 == Filled(old(insn.op3), 9, 2, w)
    ensures insn.itype == old(insn.itype) && insn.size == old(insn.size)
  {
    SetRegs3(insn, AccCode, Fs(w), Ft(w));
  }

  /** Layout 10: fd, fs, ft. */
  method DecodeType10(insn: Insn, w: Word)
    modifies insn
    ensures insn.op1 == Filled(old(insn.op1), 10, 0, w)
    ensures insn.op2 == Filled(old(insn.op2), 10, 1, w)
    ensures insn.op3 == Filled(old(insn.op3), 10, 2, w)
    ensures insn.itype == old(insn.itype) && insn.size == old(insn.size)
  {
    SetRegs3(insn, Fd(w), Fs(w), Ft(w));
  }

  /** Layout 11: fs, ft. */
  method DecodeType11(insn: Insn, w: Word)
    modifies insn
    ensures insn.op1 == Filled(old(insn.op1), 11, 0, w)
    ensures insn.op2 == Filled(old(insn.op2), 11, 1, w)
    ensures insn.op3 == Filled(old(insn.op3), 11, 2, w)
    ensures insn.itype == old(insn.itype) && insn.size == old(insn.size)
  {
    SetRegs2(insn, Fs(w), Ft(w));
  }

  /** Layout 12: Q, fs with its lane, ft with its lane. */
  method DecodeType12(insn: Insn, w: Word)
    modifies insn
    ensures insn.op1 == Filled(old(insn.op1), 12, 0, w)
    ensures insn.op2 == Filled(old(insn.op2), 12, 1, w)
    ensures insn.op3 == Filled(old(insn.op3), 12, 2, w)
    ensures insn.itype == old(insn.itype) && insn.size == old(insn.size)
  {
    SetRegs3(insn, QCode, Fs(w) | (Fsf(w) << 8), Ft(w) | (Ftf(w) << 8));
  }

  /** Layout 13: Q, ft with its lane. */
  method DecodeType13(insn: Insn, w: Word)
    modifies insn
    ensures insn.op1 == Filled(old(insn.op1), 13, 0, w)
    ensures insn.op2 == Filled(old(insn.op2), 13, 1, w)
    ensures insn.op3 == Filled(old(insn.op3), 13, 2, w)
    ensures insn.itype == old(insn.itype) && insn.size == old(insn.size)
  {
    SetRegs2(insn, QCode, Ft(w) | (Ftf(w) << 8));
  }

  /** Layout 14: fd, fs, ft. */
  method DecodeType14(insn: Insn, w: Word)
    modifies insn
    ensures insn.op1 == Filled(old(insn.op1), 14, 0, w)
    ensures insn.op2 == Filled(old(insn.op2), 14, 1, w)
    ensures insn.op3 == Filled(old(insn.op3), 14, 2, w)
    ensures insn.itype == old(insn.itype) && insn.size == old(insn.size)
  {
    SetRegs3(insn, Fd(w), Fs(w), Ft(w));
  }

  /** Layout 15: ft, fs, the 5-bit immediate in bits 10..6. */
  method DecodeType15(insn: Insn, w: Word)
    modifies insn
    ensures insn.op1 == Filled(old(insn.op1), 15, 0, w)
    ensures insn.op2 == Filled(old(insn.op2), 15, 1, w)
    ensures insn.op3 == Filled(old(insn.op3), 15, 2, w)
    ensures insn.itype == old(insn.itype) && insn.size == old(insn.size)
  {
    insn.op1 := insn.op1.(kind := RegOperand, reg := Ft(w));
    insn.op2 := insn.op2.(kind := RegOperand, reg := Fs(w));
    insn.op3 := insn.op3.(kind := ImmOperand, value := Fd(w) as bv32);
  }

  /** Layout 16: ft, fs. */
  method DecodeType16(insn: Insn, w: Word)
    modifies insn
    ensures insn.op1 == Filled(old(insn.op1), 16, 0, w)
    ensures insn.op2 == Filled(old(insn.op2), 16, 1, w)
    ensures insn.op3 == Filled(old(insn.op3), 16, 2, w)
    ensures insn.itype == old(insn.itype) && insn.size == old(insn.size)
  {
    SetRegs2(insn, Ft(w), Fs(w));
  }

  /** Layout 17: ft, fs. */
  method DecodeType17(insn: Insn, w: Word)
    modifies insn
    ensures insn.op1 == Filled(old(insn.op1), 17, 0, w)
    ensures insn.op2 == Filled(old(insn.op2), 17, 1, w)
    ensures insn.op3 == Filled(old(insn.op3), 17, 2, w)
    ensures insn.itype == old(insn.itype) && insn.size == old(insn.size)
  {
    SetRegs2(insn, Ft(w), Fs(w));
  }

  /** Layout 18: ft, fs with its lane. */
  method DecodeType18(insn: Insn, w: Word)
    modifies insn
    ensures insn.op1 == Filled(old(insn.op1), 18, 0, w)
    ensures insn.op2 == Filled(old(insn.op2), 18, 1, w)
    ensures insn.op3 == Filled(old(insn.op3), 18, 2, w)
    ensures insn.itype == old(insn.itype) && insn.size == old(insn.size)
  {
    SetRegs2(insn, Ft(w), Fs(w) | (Fsf(w) << 8));
  }

  /** Layout 19: fs, ft. */
  method DecodeType19(insn: Insn, w: Word)
    modifies insn
    ensures insn.op1 == Filled(old(insn.op1), 19, 0, w)
    ensures insn.op2 == Filled(old(insn.op2), 19, 1, w)
    ensures insn.op3 == Filled(old(insn.op3), 19, 2, w)
    ensures insn.itype == old(insn.itype) && insn.size == old(insn.size)
  {
    SetRegs2(insn, Fs(w), Ft(w));
  }

  /** Layout 20: ft, fs. */
  method DecodeType20(insn: Insn, w: Word)
    modifies insn
    ensures insn.op1 == Filled(old(insn.op1), 20, 0, w)
    ensures insn.op2 == Filled(old(insn.op2), 20, 1, w)
    ensures insn.op3 == Filled(old(insn.op3), 20, 2, w)
    ensures insn.itype == old(insn.itype) && insn.size == old(insn.size)
  {
    SetRegs2(insn, Ft(w), Fs(w));
  }

  /** Layout 21: R, fs with its lane. */
  method DecodeType21(insn: Insn, w: Word)
    modifies insn
    ensures insn.op1 == Filled(old(insn.op1), 21, 0, w)
    ensures insn.op2 == Filled(old(insn.op2), 21, 1, w)
    ensures insn.op3 == Filled(old(insn.op3), 21, 2, w)
    ensures insn.itype == old(insn.itype) && insn.size == old(insn.size)
  {
    SetRegs2(insn, RCode, Fs(w) | (Fsf(w) << 8));
  }

  /** Layout 22: ft, R. */
  method DecodeType22(insn: Insn, w: Word)
    modifies insn
    ensures insn.op1 == Filled(old(insn.op1), 22, 0, w)
    ensures insn.op2 == Filled(old(insn.op2), 22, 1, w)
    ensures insn.op3 == Filled(old(insn.op3), 22, 2, w)
    ensures insn.itype == old(insn.itype) && insn.size == old(insn.size)
  {
    SetRegs2(insn, Ft(w), RCode);
  }

  /** The two tables agree: every class the register-class table lists suits the
      operand in that slot, and the only operand without a class is the immediate of
      layout 15. */
  lemma ClassesFitSources(dt: Layout)
    ensures |LayoutSources(dt)| == |RegTypes(dt)| + (if dt == 15 then 1 else 0)
    ensures forall k :: 0 <= k < |RegTypes(dt)| ==> ClassFits(RegTypes(dt)[k], LayoutSources(dt)[k])
    ensures dt == 15 ==> LayoutSources(dt)[2] == Imm5
  {
  }

  /** The layouts that read bits 10..6 are exactly those with an fd or immediate operand. */
  lemma ReadsBitsTenToSixExact(dt: Layout)
    ensures ReadsBitsTenToSix(dt) <==> (FdField in LayoutSources(dt) || Imm5 in LayoutSources(dt))
  {
  }

  /** Every control register a layout names is one of A, I, Q and R. */
  lemma ControlLetters(dt: Layout, k: nat)
    requires k < |LayoutSources(dt)| && LayoutSources(dt)[k].Control?
    ensures LayoutSources(dt)[k].code in {AccCode, ICode, QCode, RCode}
  {
  }

  /** A layout that does not read bits 10..6 decodes the same operands from two words
      that differ only there. */
  lemma FieldsIgnoreBitsTenToSix(dt: Layout, w: Word, w': Word, slot: Slot, k: nat)
    requires !ReadsBitsTenToSix(dt)
    requires w & 0xFFFF_F83F == w' & 0xFFFF_F83F
    ensures Filled(slot, dt, k, w) == Filled(slot, dt, k, w')
  {
    var src := LayoutSources(dt);
    if k < |src| {
      ReadsBitsTenToSixExact(dt);
      assert src[k] != FdField && src[k] != Imm5;
      FieldsAgree(w, w');
    }
  }

  /** Words that agree outside bits 10..6 have the same ft, fs and lane selectors. */
  lemma FieldsAgree(w: Word, w': Word)
    requires w & 0xFFFF_F83F == w' & 0xFFFF_F83F
    ensures Ft(w) == Ft(w') && Fs(w) == Fs(w')
    ensures Ftf(w) == Ftf(w') && Fsf(w) == Fsf(w')
  {
  }
}
