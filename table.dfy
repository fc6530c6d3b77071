/** The catalog of COP2 macro-mode instructions as the decoder declares it, and the
    table operations run once when the decoder is built: sorting by opcode,
    lowercasing the mnemonics, and locating the high-nibble partitions. */
module Table {
  import opened Words
  import opened Fields
  import opened Wrappers

  /** A catalog entry: opcode, mnemonic, field layout, and whether the mnemonic takes
      the destination-mask suffix. */
  datatype IDef = IDef(opcode: int, name: string, dt: Layout, dest: bool)

  /** Catalog entries: VABS and the ADD family. */
  function AbsAddRows(): seq<IDef>
  {
    [
      IDef(0x1FD, "VABS", 1, true),
      IDef(0x028, "VADD", 2, true),
      IDef(0x022, "VADDi", 3, true),
      IDef(0x020, "VADDq", 4, true),
      IDef(0x000, "VADDx", 2, true),
      IDef(0x001, "VADDy", 2, true),
      IDef(0x002, "VADDz", 2, true),
      IDef(0x003, "VADDw", 2, true),
      IDef(0x2BC, "VADDA", 5, true),
      IDef(0x23E, "VADDAi", 6, true),
      IDef(0x23C, "VADDAq", 7, true),
      IDef(0x03C, "VADDAx", 8, true),
      IDef(0x03D, "VADDAy", 8, true),
      IDef(0x03E, "VADDAz", 8, true),
      IDef(0x03F, "VADDAw", 8, true)
    ]
  }

  /** Catalog entries: the SUB family. */
  function SubRows(): seq<IDef>
  {
    [
      IDef(0x02C, "VSUB", 2, true),
      IDef(0x026, "VSUBi", 3, true),
      IDef(0x024, "VSUBq", 4, true),
      IDef(0x004, "VSUBx", 2, true),
      IDef(0x005, "VSUBy", 2, true),
      IDef(0x006, "VSUBz", 2, true),
      IDef(0x007, "VSUBw", 2, true),
      IDef(0x2FC, "VSUBA", 5, true),
      IDef(0x27E, "VSUBAi", 6, true),
      IDef(0x27C, "VSUBAq", 7, true),
      IDef(0x07C, "VSUBAx", 8, true),
      IDef(0x07D, "VSUBAy", 8, true),
      IDef(0x07E, "VSUBAz", 8, true),
      IDef(0x07F, "VSUBAw", 8, true)
    ]
  }

  /** Catalog entries: the MUL family. */
  function MulRows(): seq<IDef>
  {
    [
      IDef(0x02A, "VMUL", 2, true),
      IDef(0x01E, "VMULi", 3, true),
      IDef(0x01C, "VMULq", 4, true),
      IDef(0x018, "VMULx", 2, true),
      IDef(0x019, "VMULy", 2, true),
      IDef(0x01A, "VMULz", 2, true),
      IDef(0x01B, "VMULw", 2, true),
      IDef(0x2BE, "VMULA", 5, true),
      IDef(0x1FE, "VMULAi", 6, true),
      IDef(0x1FC, "VMULAq", 7, true),
      IDef(0x1BC, "VMULAx", 8, true),
      IDef(0x1BD, "VMULAy", 8, true),
      IDef(0x1BE, "VMULAz", 8, true),
      IDef(0x1BF, "VMULAw", 8, true)
    ]
  }

  /** Catalog entries: the MADD family. */
  function MaddRows(): seq<IDef>
  {
    [
      IDef(0x029, "VMADD", 2, true),
      IDef(0x023, "VMADDi", 3, true),
      IDef(0x021, "VMADDq", 4, true),
      IDef(0x008, "VMADDx", 2, true),
      IDef(0x009, "VMADDy", 2, true),
      IDef(0x00A, "VMADDz", 2, true),
      IDef(0x00B, "VMADDw", 2, true),
      IDef(0x2BD, "VMADDA", 5, true),
      IDef(0x23F, "VMADDAi", 6, true),
      IDef(0x23D, "VMADDAq", 7, true),
      IDef(0x0BC, "VMADDAx", 8, true),
      IDef(0x0BD, "VMADDAy", 8, true),
      IDef(0x0BE, "VMADDAz", 8, true),
      IDef(0x0BF, "VMADDAw", 8, true)
    ]
  }

  /** Catalog entries: the MSUB family. */
  function MsubRows(): seq<IDef>
  {
    [
      IDef(0x02D, "VMSUB", 2, true),
      IDef(0x027, "VMSUBi", 3, true),
      IDef(0x025, "VMSUBq", 4, true),
      IDef(0x00C, "VMSUBx", 2, true),
      IDef(0x00D, "VMSUBy", 2, true),
      IDef(0x00E, "VMSUBz", 2, true),
      IDef(0x00F, "VMSUBw", 2, true),
      IDef(0x2FD, "VMSUBA", 5, true),
      IDef(0x27F, "VMSUBAi", 6, true),
      IDef(0x27D, "VMSUBAq", 7, true),
      IDef(0x0FC, "VMSUBAx", 8, true),
      IDef(0x0FD, "VMSUBAy", 8, true),
      IDef(0x0FE, "VMSUBAz", 8, true),
      IDef(0x0FF, "VMSUBAw", 8, true)
    ]
  }

  /** Catalog entries: the MAX and MINI families, VOPMULA, VOPMSUB and VNOP. */
  function MaxMiniRows(): seq<IDef>
  {
    [
      IDef(0x02B, "VMAX", 2, true),
      IDef(0x01D, "VMAXi", 3, true),
      IDef(0x010, "VMAXx", 2, true),
      IDef(0x011, "VMAXy", 2, true),
      IDef(0x012, "VMAXz", 2, true),
      IDef(0x013, "VMAXw", 2, true),
      IDef(0x02F, "VMINI", 2, true),
      IDef(0x01F, "VMINIi", 3, true),
      IDef(0x014, "VMINIx", 2, true),
      IDef(0x015, "VMINIy", 2, true),
      IDef(0x016, "VMINIz", 2, true),
      IDef(0x017, "VMINIw", 2, true),
      IDef(0x2FE, "VOPMULA", 9, false),
      IDef(0x02E, "VOPMSUB", 10, false),
      IDef(0x2FF, "VNOP", 0, false)
    ]
  }

  /** Catalog entries: conversions, CLIP, DIV, SQRT, RSQRT and the integer ADD, ADDI, AND, OR. */
  function ConvertRows(): seq<IDef>
  {
    [
      IDef(0x17C, "VFTOI0", 1, true),
      IDef(0x17D, "VFTOI4", 1, true),
      IDef(0x17E, "VFTOI12", 1, true),
      IDef(0x17F, "VFTOI15", 1, true),
      IDef(0x13C, "VITOF0", 1, true),
      IDef(0x13D, "VITOF4", 1, true),
      IDef(0x13E, "VITOF12", 1, true),
      IDef(0x13F, "VITOF15", 1, true),
      IDef(0x1FF, "VCLIP", 11, false),
      IDef(0x3BC, "VDIV", 12, false),
      IDef(0x3BD, "VSQRT", 13, false),
      IDef(0x3BE, "VRSQRT", 12, false),
      IDef(0x030, "VIADD", 14, false),
      IDef(0x032, "VIADDI", 15, false),
      IDef(0x034, "VIAND", 14, false),
      IDef(0x035, "VIOR", 14, false)
    ]
  }

  /** Catalog entries: ISUB, the moves, loads and stores, the random unit and WAITQ. */
  function TransferRows(): seq<IDef>
  {
    [
      IDef(0x031, "VISUB", 14, false),
      IDef(0x33C, "VMOVE", 16, true),
      IDef(0x3FD, "VMFIR", 17, true),
      IDef(0x3FC, "VMTIR", 18, false),
      IDef(0x33D, "VMR32", 16, true),
      IDef(0x37E, "VLQD", 17, true),
      IDef(0x37C, "VLQI", 17, true),
      IDef(0x37F, "VSQD", 19, true),
      IDef(0x37D, "VSQI", 19, true),
      IDef(0x3FE, "VILWR", 20, true),
      IDef(0x3FF, "VISWR", 20, true),
      IDef(0x43E, "VRINIT", 21, false),
      IDef(0x43D, "VRGET", 22, true),
      IDef(0x43C, "VRNEXT", 22, true),
      IDef(0x43F, "VRXOR", 21, false),
      IDef(0x3BF, "VWAITQ", 0, false)
    ]
  }

  /** The catalog in declaration order. */
  function Catalog(): (c: seq<IDef>)
    ensures |c| == 118
  {
    AbsAddRows() + SubRows() + MulRows() + MaddRows() + MsubRows() + MaxMiniRows() +
    ConvertRows() + TransferRows()
  }

  /** No two entries share an opcode. */
  predicate OpcodesDistinct(t: seq<IDef>)
  {
    forall i, j :: 0 <= i < j < |t| ==> t[i].opcode != t[j].opcode
  }

  /** No entry of a shares its opcode with an entry of b. */
  predicate Apart(a: seq<IDef>, b: seq<IDef>)
  {
    forall i, j :: 0 <= i < |a| && 0 <= j < |b| ==> a[i].opcode != b[j].opcode
  }

  /** Some word carries the entry's opcode, and its layout reads bits 10..6 only when
      the opcode is a 6-bit one, so no operand is taken from opcode bits. */
  predicate WellFormedEntry(e: IDef)
  {
    Encodable(e.opcode) && (ReadsBitsTenToSix(e.dt) ==> e.opcode < 0x3C)
  }

  predicate AllWellFormed(t: seq<IDef>)
  {
    forall i :: 0 <= i < |t| ==> WellFormedEntry(t[i])
  }

  /** The opcodes of t, in order. */
  function Opcodes(t: seq<IDef>): seq<int>
  {
    seq(|t|, i requires 0 <= i < |t| => t[i].opcode)
  }

  lemma DistinctFromOpcodes(t: seq<IDef>)
    requires var o := Opcodes(t); forall i, j :: 0 <= i < j < |o| ==> o[i] != o[j]
    ensures OpcodesDistinct(t)
  {
    assert forall i :: 0 <= i < |t| ==> Opcodes(t)[i] == t[i].opcode;
  }

  lemma ApartFromOpcodes(a: seq<IDef>, b: seq<IDef>)
    requires var oa, ob := Opcodes(a), Opcodes(b);
      forall i, j :: 0 <= i < |oa| && 0 <= j < |ob| ==> oa[i] != ob[j]
    ensures Apart(a, b)
  {
    assert forall i :: 0 <= i < |a| ==> Opcodes(a)[i] == a[i].opcode;
    assert forall j :: 0 <= j < |b| ==> Opcodes(b)[j] == b[j].opcode;
  }

  lemma AbsAddRowsDistinct()
    ensures var o := Opcodes(AbsAddRows()); forall i, j :: 0 <= i < j < |o| ==> o[i] != o[j]
  {
  }

  lemma SubRowsDistinct()
    ensures var o := Opcodes(SubRows()); forall i, j :: 0 <= i < j < |o| ==> o[i] != o[j]
  {
  }

  lemma MulRowsDistinct()
    ensures var o := Opcodes(MulRows()); forall i, j :: 0 <= i < j < |o| ==> o[i] != o[j]
  {
  }

  lemma MaddRowsDistinct()
    ensures var o := Opcodes(MaddRows()); forall i, j :: 0 <= i < j < |o| ==> o[i] != o[j]
  {
  }

  lemma MsubRowsDistinct()
    ensures var o := Opcodes(MsubRows()); forall i, j :: 0 <= i < j < |o| ==> o[i] != o[j]
  {
  }

  lemma MaxMiniRowsDistinct()
    ensures var o := Opcodes(MaxMiniRows()); forall i, j :: 0 <= i < j < |o| ==> o[i] != o[j]
  {
  }

  lemma ConvertRowsDistinct()
    ensures var o := Opcodes(ConvertRows()); forall i, j :: 0 <= i < j < |o| ==> o[i] != o[j]
  {
  }

  lemma TransferRowsDistinct()
    ensures var o := Opcodes(TransferRows()); forall i, j :: 0 <= i < j < |o| ==> o[i] != o[j]
  {
  }

  lemma AbsAddRowsApartSub()
    ensures Apart(AbsAddRows(), SubRows())
  {
    assert var a, b := Opcodes(AbsAddRows()), Opcodes(SubRows()); forall i, j :: 0 <= i < |a| && 0 <= j < |b| ==> a[i] != b[j];
    ApartFromOpcodes(AbsAddRows(), SubRows());
  }

  lemma AbsAddRowsApartMul()
    ensures Apart(AbsAddRows(), MulRows())
  {
    assert var a, b := Opcodes(AbsAddRows()), Opcodes(MulRows()); forall i, j :: 0 <= i < |a| && 0 <= j < |b| ==> a[i] != b[j];
    ApartFromOpcodes(AbsAddRows(), MulRows());
  }

  lemma AbsAddRowsApartMadd()
    ensures Apart(AbsAddRows(), MaddRows())
  {
    assert var a, b := Opcodes(AbsAddRows()), Opcodes(MaddRows()); forall i, j :: 0 <= i < |a| && 0 <= j < |b| ==> a[i] != b[j];
    ApartFromOpcodes(AbsAddRows(), MaddRows());
  }

  lemma AbsAddRowsApartMsub()
    ensures Apart(AbsAddRows(), MsubRows())
  {
    assert var a, b := Opcodes(AbsAddRows()), Opcodes(MsubRows()); forall i, j :: 0 <= i < |a| && 0 <= j < |b| ==> a[i] != b[j];
    ApartFromOpcodes(AbsAddRows(), MsubRows());
  }

  lemma AbsAddRowsApartMaxMini()
    ensures Apart(AbsAddRows(), MaxMiniRows())
  {
    assert var a, b := Opcodes(AbsAddRows()), Opcodes(MaxMiniRows()); forall i, j :: 0 <= i < |a| && 0 <= j < |b| ==> a[i] != b[j];
    ApartFromOpcodes(AbsAddRows(), MaxMiniRows());
  }

  lemma AbsAddRowsApartConvert()
    ensures Apart(AbsAddRows(), ConvertRows())
  {
    assert var a, b := Opcodes(AbsAddRows()), Opcodes(ConvertRows()); forall i, j :: 0 <= i < |a| && 0 <= j < |b| ==> a[i] != b[j];
    ApartFromOpcodes(AbsAddRows(), ConvertRows());
  }

  lemma AbsAddRowsApartTransfer()
    ensures Apart(AbsAddRows(), TransferRows())
  {
    assert var a, b := Opcodes(AbsAddRows()), Opcodes(TransferRows()); forall i, j :: 0 <= i < |a| && 0 <= j < |b| ==> a[i] != b[j];
    ApartFromOpcodes(AbsAddRows(), TransferRows());
  }

  lemma SubRowsApartMul()
    ensures Apart(SubRows(), MulRows())
  {
    assert var a, b := Opcodes(SubRows()), Opcodes(MulRows()); forall i, j :: 0 <= i < |a| && 0 <= j < |b| ==> a[i] != b[j];
    ApartFromOpcodes(SubRows(), MulRows());
  }

  lemma SubRowsApartMadd()
    ensures Apart(SubRows(), MaddRows())
  {
    assert var a, b := Opcodes(SubRows()), Opcodes(MaddRows()); forall i, j :: 0 <= i < |a| && 0 <= j < |b| ==> a[i] != b[j];
    ApartFromOpcodes(SubRows(), MaddRows());
  }

  lemma SubRowsApartMsub()
    ensures Apart(SubRows(), MsubRows())
  {
    assert var a, b := Opcodes(SubRows()), Opcodes(MsubRows()); forall i, j :: 0 <= i < |a| && 0 <= j < |b| ==> a[i] != b[j];
    ApartFromOpcodes(SubRows(), MsubRows());
  }

  lemma SubRowsApartMaxMini()
    ensures Apart(SubRows(), MaxMiniRows())
  {
    assert var a, b := Opcodes(SubRows()), Opcodes(MaxMiniRows()); forall i, j :: 0 <= i < |a| && 0 <= j < |b| ==> a[i] != b[j];
    ApartFromOpcodes(SubRows(), MaxMiniRows());
  }

  lemma SubRowsApartConvert()
    ensures Apart(SubRows(), ConvertRows())
  {
    assert var a, b := Opcodes(SubRows()), Opcodes(ConvertRows()); forall i, j :: 0 <= i < |a| && 0 <= j < |b| ==> a[i] != b[j];
    ApartFromOpcodes(SubRows(), ConvertRows());
  }

  lemma SubRowsApartTransfer()
    ensures Apart(SubRows(), TransferRows())
  {
    assert var a, b := Opcodes(SubRows()), Opcodes(TransferRows()); forall i, j :: 0 <= i < |a| && 0 <= j < |b| ==> a[i] != b[j];
    ApartFromOpcodes(SubRows(), TransferRows());
  }

  lemma MulRowsApartMadd()
    ensures Apart(MulRows(), MaddRows())
  {
    assert var a, b := Opcodes(MulRows()), Opcodes(MaddRows()); forall i, j :: 0 <= i < |a| && 0 <= j < |b| ==> a[i] != b[j];
    ApartFromOpcodes(MulRows(), MaddRows());
  }

  lemma MulRowsApartMsub()
    ensures Apart(MulRows(), MsubRows())
  {
    assert var a, b := Opcodes(MulRows()), Opcodes(MsubRows()); forall i, j :: 0 <= i < |a| && 0 <= j < |b| ==> a[i] != b[j];
    ApartFromOpcodes(MulRows(), MsubRows());
  }

  lemma MulRowsApartMaxMini()
    ensures Apart(MulRows(), MaxMiniRows())
  {
    assert var a, b := Opcodes(MulRows()), Opcodes(MaxMiniRows()); forall i, j :: 0 <= i < |a| && 0 <= j < |b| ==> a[i] != b[j];
    ApartFromOpcodes(MulRows(), MaxMiniRows());
  }

  lemma MulRowsApartConvert()
    ensures Apart(MulRows(), ConvertRows())
  {
    assert var a, b := Opcodes(MulRows()), Opcodes(ConvertRows()); forall i, j :: 0 <= i < |a| && 0 <= j < |b| ==> a[i] != b[j];
    ApartFromOpcodes(MulRows(), ConvertRows());
  }

  lemma MulRowsApartTransfer()
    ensures Apart(MulRows(), TransferRows())
  {
    assert var a, b := Opcodes(MulRows()), Opcodes(TransferRows()); forall i, j :: 0 <= i < |a| && 0 <= j < |b| ==> a[i] != b[j];
    ApartFromOpcodes(MulRows(), TransferRows());
  }

  lemma MaddRowsApartMsub()
    ensures Apart(MaddRows(), MsubRows())
  {
    assert var a, b := Opcodes(MaddRows()), Opcodes(MsubRows()); forall i, j :: 0 <= i < |a| && 0 <= j < |b| ==> a[i] != b[j];
    ApartFromOpcodes(MaddRows(), MsubRows());
  }

  lemma MaddRowsApartMaxMini()
    ensures Apart(MaddRows(), MaxMiniRows())
  {
    assert var a, b := Opcodes(MaddRows()), Opcodes(MaxMiniRows()); forall i, j :: 0 <= i < |a| && 0 <= j < |b| ==> a[i] != b[j];
    ApartFromOpcodes(MaddRows(), MaxMiniRows());
  }

  lemma MaddRowsApartConvert()
    ensures Apart(MaddRows(), ConvertRows())
  {
    assert var a, b := Opcodes(MaddRows()), Opcodes(ConvertRows()); forall i, j :: 0 <= i < |a| && 0 <= j < |b| ==> a[i] != b[j];
    ApartFromOpcodes(MaddRows(), ConvertRows());
  }

  lemma MaddRowsApartTransfer()
    ensures Apart(MaddRows(), TransferRows())
  {
    assert var a, b := Opcodes(MaddRows()), Opcodes(TransferRows()); forall i, j :: 0 <= i < |a| && 0 <= j < |b| ==> a[i] != b[j];
    ApartFromOpcodes(MaddRows(), TransferRows());
  }

  lemma MsubRowsApartMaxMini()
    ensures Apart(MsubRows(), MaxMiniRows())
  {
    assert var a, b := Opcodes(MsubRows()), Opcodes(MaxMiniRows()); forall i, j :: 0 <= i < |a| && 0 <= j < |b| ==> a[i] != b[j];
    ApartFromOpcodes(MsubRows(), MaxMiniRows());
  }

  lemma MsubRowsApartConvert()
    ensures Apart(MsubRows(), ConvertRows())
  {
    assert var a, b := Opcodes(MsubRows()), Opcodes(ConvertRows()); forall i, j :: 0 <= i < |a| && 0 <= j < |b| ==> a[i] != b[j];
    ApartFromOpcodes(MsubRows(), ConvertRows());
  }

  lemma MsubRowsApartTransfer()
    ensures Apart(MsubRows(), TransferRows())
  {
    assert var a, b := Opcodes(MsubRows()), Opcodes(TransferRows()); forall i, j :: 0 <= i < |a| && 0 <= j < |b| ==> a[i] != b[j];
    ApartFromOpcodes(MsubRows(), TransferRows());
  }

  lemma MaxMiniRowsApartConvert()
    ensures Apart(MaxMiniRows(), ConvertRows())
  {
    assert var a, b := Opcodes(MaxMiniRows()), Opcodes(ConvertRows()); forall i, j :: 0 <= i < |a| && 0 <= j < |b| ==> a[i] != b[j];
    ApartFromOpcodes(MaxMiniRows(), ConvertRows());
  }

  lemma MaxMiniRowsApartTransfer()
    ensures Apart(MaxMiniRows(), TransferRows())
  {
    assert var a, b := Opcodes(MaxMiniRows()), Opcodes(TransferRows()); forall i, j :: 0 <= i < |a| && 0 <= j < |b| ==> a[i] != b[j];
    ApartFromOpcodes(MaxMiniRows(), TransferRows());
  }

  lemma ConvertRowsApartTransfer()
    ensures Apart(ConvertRows(), TransferRows())
  {
    assert var a, b := Opcodes(ConvertRows()), Opcodes(TransferRows()); forall i, j :: 0 <= i < |a| && 0 <= j < |b| ==> a[i] != b[j];
    ApartFromOpcodes(ConvertRows(), TransferRows());
  }

  lemma AbsAddRowsWellFormed()
    ensures AllWellFormed(AbsAddRows())
  {
  }

  lemma SubRowsWellFormed()
    ensures AllWellFormed(SubRows())
  {
  }

  lemma MulRowsWellFormed()
    ensures AllWellFormed(MulRows())
  {
  }

  lemma MaddRowsWellFormed()
    ensures AllWellFormed(MaddRows())
  {
  }

  lemma MsubRowsWellFormed()
    ensures AllWellFormed(MsubRows())
  {
  }

  lemma MaxMiniRowsWellFormed()
    ensures AllWellFormed(MaxMiniRows())
  {
  }

  lemma ConvertRowsWellFormed()
    ensures AllWellFormed(ConvertRows())
  {
  }

  lemma TransferRowsWellFormed()
    ensures AllWellFormed(TransferRows())
  {
  }

  /** Joining two tables keeps opcodes distinct when each is and they are apart. */
  lemma DistinctJoin(a: seq<IDef>, b: seq<IDef>)
    requires OpcodesDistinct(a) && OpcodesDistinct(b) && Apart(a, b)
    ensures OpcodesDistinct(a + b)
  {
    var t := a + b;
    forall i, j | 0 <= i < j < |t|
      ensures t[i].opcode != t[j].opcode
    {
      if j < |a| {
        assert t[i] == a[i] && t[j] == a[j];
      } else if i < |a| {
        assert t[i] == a[i] && t[j] == b[j - |a|];
      } else {
        assert t[i] == b[i - |a|] && t[j] == b[j - |a|];
      }
    }
  }

  lemma ApartJoin(a: seq<IDef>, b: seq<IDef>, c: seq<IDef>)
    requires Apart(a, c) && Apart(b, c)
    ensures Apart(a + b, c)
  {
    var t := a + b;
    forall i, j | 0 <= i < |t| && 0 <= j < |c|
      ensures t[i].opcode != c[j].opcode
    {
      if i < |a| {
        assert t[i] == a[i];
      } else {
        assert t[i] == b[i - |a|];
      }
    }
  }

  lemma WellFormedJoin(a: seq<IDef>, b: seq<IDef>)
    requires AllWellFormed(a) && AllWellFormed(b)
    ensures AllWellFormed(a + b)
  {
    var t := a + b;
    forall i | 0 <= i < |t|
      ensures WellFormedEntry(t[i])
    {
      if i < |a| {
        assert t[i] == a[i];
      } else {
        assert t[i] == b[i - |a|];
      }
    }
  }

  lemma AbsAddRowsGood()
    ensures OpcodesDistinct(AbsAddRows()) && AllWellFormed(AbsAddRows())
  {
    AbsAddRowsDistinct();
    DistinctFromOpcodes(AbsAddRows());
    AbsAddRowsWellFormed();
  }

  lemma SubRowsGood()
    ensures OpcodesDistinct(SubRows()) && AllWellFormed(SubRows())
  {
    SubRowsDistinct();
    DistinctFromOpcodes(SubRows());
    SubRowsWellFormed();
  }

  lemma MulRowsGood()
    ensures OpcodesDistinct(MulRows()) && AllWellFormed(MulRows())
  {
    MulRowsDistinct();
    DistinctFromOpcodes(MulRows());
    MulRowsWellFormed();
  }

  lemma MaddRowsGood()
    ensures OpcodesDistinct(MaddRows()) && AllWellFormed(MaddRows())
  {
    MaddRowsDistinct();
    DistinctFromOpcodes(MaddRows());
    MaddRowsWellFormed();
  }

  lemma MsubRowsGood()
    ensures OpcodesDistinct(MsubRows()) && AllWellFormed(MsubRows())
  {
    MsubRowsDistinct();
    DistinctFromOpcodes(MsubRows());
    MsubRowsWellFormed();
  }

  lemma MaxMiniRowsGood()
    ensures OpcodesDistinct(MaxMiniRows()) && AllWellFormed(MaxMiniRows())
  {
    MaxMiniRowsDistinct();
    DistinctFromOpcodes(MaxMiniRows());
    MaxMiniRowsWellFormed();
  }

  lemma ConvertRowsGood()
    ensures OpcodesDistinct(ConvertRows()) && AllWellFormed(ConvertRows())
  {
    ConvertRowsDistinct();
    DistinctFromOpcodes(ConvertRows());
    ConvertRowsWellFormed();
  }

  lemma TransferRowsGood()
    ensures OpcodesDistinct(TransferRows()) && AllWellFormed(TransferRows())
  {
    TransferRowsDistinct();
    DistinctFromOpcodes(TransferRows());
    TransferRowsWellFormed();
  }

  lemma SubRowsApartEarlier()
    ensures Apart(AbsAddRows(), SubRows())
  {
    AbsAddRowsApartSub();
  }

  lemma MulRowsApartEarlier()
    ensures Apart(AbsAddRows(), MulRows()) && Apart(SubRows(), MulRows())
  {
    AbsAddRowsApartMul();
    SubRowsApartMul();
  }

  lemma MaddRowsApartEarlier()
    ensures Apart(AbsAddRows(), MaddRows()) && Apart(SubRows(), MaddRows()) && Apart(MulRows(), MaddRows())
  {
    AbsAddRowsApartMadd();
    SubRowsApartMadd();
    MulRowsApartMadd();
  }

  lemma MsubRowsApartEarlier()
    ensures Apart(AbsAddRows(), MsubRows()) && Apart(SubRows(), MsubRows()) && Apart(MulRows(), MsubRows()) && Apart(MaddRows(), MsubRows())
  {
    AbsAddRowsApartMsub();
    SubRowsApartMsub();
    MulRowsApartMsub();
    MaddRowsApartMsub();
  }

  lemma MaxMiniRowsApartEarlier()
    ensures Apart(AbsAddRows(), MaxMiniRows()) && Apart(SubRows(), MaxMiniRows()) && Apart(MulRows(), MaxMiniRows()) && Apart(MaddRows(), MaxMiniRows()) && Apart(MsubRows(), MaxMiniRows())
  {
    AbsAddRowsApartMaxMini();
    SubRowsApartMaxMini();
    MulRowsApartMaxMini();
    MaddRowsApartMaxMini();
    MsubRowsApartMaxMini();
  }

  lemma ConvertRowsApartEarlier()
    ensures Apart(AbsAddRows(), ConvertRows()) && Apart(SubRows(), ConvertRows()) && Apart(MulRows(), ConvertRows()) && Apart(MaddRows(), ConvertRows()) && Apart(MsubRows(), ConvertRows()) && Apart(MaxMiniRows(), ConvertRows())
  {
    AbsAddRowsApartConvert();
    SubRowsApartConvert();
    MulRowsApartConvert();
    MaddRowsApartConvert();
    MsubRowsApartConvert();
    MaxMiniRowsApartConvert();
  }

  lemma TransferRowsApartEarlier()
    ensures Apart(AbsAddRows(), TransferRows()) && Apart(SubRows(), TransferRows()) && Apart(MulRows(), TransferRows()) && Apart(MaddRows(), TransferRows()) && Apart(MsubRows(), TransferRows()) && Apart(MaxMiniRows(), TransferRows()) && Apart(ConvertRows(), TransferRows())
  {
    AbsAddRowsApartTransfer();
    SubRowsApartTransfer();
    MulRowsApartTransfer();
    MaddRowsApartTransfer();
    MsubRowsApartTransfer();
    MaxMiniRowsApartTransfer();
    ConvertRowsApartTransfer();
  }

  /** The catalog has 118 entries with pairwise distinct opcodes, each carried by some
      word and never decoded from its own opcode bits. */
  lemma CatalogWellFormed()
    ensures |Catalog()| == 118
    ensures OpcodesDistinct(Catalog())
    ensures AllWellFormed(Catalog())
  {
    AbsAddRowsGood();
    SubRowsGood();
    MulRowsGood();
    MaddRowsGood();
    MsubRowsGood();
    MaxMiniRowsGood();
    ConvertRowsGood();
    TransferRowsGood();
    SubRowsApartEarlier();
    MulRowsApartEarlier();
    MaddRowsApartEarlier();
    MsubRowsApartEarlier();
    MaxMiniRowsApartEarlier();
    ConvertRowsApartEarlier();
    TransferRowsApartEarlier();
    JoinEight(AbsAddRows(), SubRows(), MulRows(), MaddRows(), MsubRows(), MaxMiniRows(), ConvertRows(), TransferRows());
  }

  /** Eight tables, each distinct and well formed and pairwise apart, join into one. */
  lemma JoinEight(g0: seq<IDef>, g1: seq<IDef>, g2: seq<IDef>, g3: seq<IDef>, g4: seq<IDef>, g5: seq<IDef>, g6: seq<IDef>, g7: seq<IDef>)
    requires OpcodesDistinct(g0) && OpcodesDistinct(g1) && OpcodesDistinct(g2) && OpcodesDistinct(g3)
    requires OpcodesDistinct(g4) && OpcodesDistinct(g5) && OpcodesDistinct(g6) && OpcodesDistinct(g7)
    requires AllWellFormed(g0) && AllWellFormed(g1) && AllWellFormed(g2) && AllWellFormed(g3)
    requires AllWellFormed(g4) && AllWellFormed(g5) && AllWellFormed(g6) && AllWellFormed(g7)
    requires Apart(g0, g1)
    requires Apart(g0, g2) && Apart(g1, g2)
    requires Apart(g0, g3) && Apart(g1, g3) && Apart(g2, g3)
    requires Apart(g0, g4) && Apart(g1, g4) && Apart(g2, g4) && Apart(g3, g4)
    requires Apart(g0, g5) && Apart(g1, g5) && Apart(g2, g5) && Apart(g3, g5) && Apart(g4, g5)
    requires Apart(g0, g6) && Apart(g1, g6) && Apart(g2, g6) && Apart(g3, g6) && Apart(g4, g6) && Apart(g5, g6)
    requires Apart(g0, g7) && Apart(g1, g7) && Apart(g2, g7) && Apart(g3, g7) && Apart(g4, g7) && Apart(g5, g7) && Apart(g6, g7)
    ensures OpcodesDistinct(g0 + g1 + g2 + g3 + g4 + g5 + g6 + g7) && AllWellFormed(g0 + g1 + g2 + g3 + g4 + g5 + g6 + g7)
  {
    DistinctJoin(g0, g1);
    WellFormedJoin(g0, g1);
    ApartJoin(g0, g1, g2);
    DistinctJoin(g0 + g1, g2);
    WellFormedJoin(g0 + g1, g2);
    ApartJoin(g0, g1, g3);
    ApartJoin(g0 + g1, g2, g3);
    DistinctJoin(g0 + g1 + g2, g3);
    WellFormedJoin(g0 + g1 + g2, g3);
    ApartJoin(g0, g1, g4);
    ApartJoin(g0 + g1, g2, g4);
    ApartJoin(g0 + g1 + g2, g3, g4);
    DistinctJoin(g0 + g1 + g2 + g3, g4);
    WellFormedJoin(g0 + g1 + g2 + g3, g4);
    ApartJoin(g0, g1, g5);
    ApartJoin(g0 + g1, g2, g5);
    ApartJoin(g0 + g1 + g2, g3, g5);
    ApartJoin(g0 + g1 + g2 + g3, g4, g5);
    DistinctJoin(g0 + g1 + g2 + g3 + g4, g5);
    WellFormedJoin(g0 + g1 + g2 + g3 + g4, g5);
    ApartJoin(g0, g1, g6);
    ApartJoin(g0 + g1, g2, g6);
    ApartJoin(g0 + g1 + g2, g3, g6);
    ApartJoin(g0 + g1 + g2 + g3, g4, g6);
    ApartJoin(g0 + g1 + g2 + g3 + g4, g5, g6);
    DistinctJoin(g0 + g1 + g2 + g3 + g4 + g5, g6);
    WellFormedJoin(g0 + g1 + g2 + g3 + g4 + g5, g6);
    ApartJoin(g0, g1, g7);
    ApartJoin(g0 + g1, g2, g7);
    ApartJoin(g0 + g1 + g2, g3, g7);
    ApartJoin(g0 + g1 + g2 + g3, g4, g7);
    ApartJoin(g0 + g1 + g2 + g3 + g4, g5, g7);
    ApartJoin(g0 + g1 + g2 + g3 + g4 + g5, g6, g7);
    DistinctJoin(g0 + g1 + g2 + g3 + g4 + g5 + g6, g7);
    WellFormedJoin(g0 + g1 + g2 + g3 + g4 + g5 + g6, g7);
  }

  /** The partition an opcode falls in: its bits 11..8, tested by the decoder as
      `opcode & 0xF00`. */
  function Partition(op: int): (n: int)
    requires 0 <= op
    ensures 0 <= n < 0x10
    ensures op < 0x800 ==> n < 8 && n * 0x100 <= op < n * 0x100 + 0x100
  {
    op / 0x100 % 0x10
  }

  /** Every one of the four partitions that have a scan start holds a catalog entry. */
  lemma CatalogHasPartitions()
    ensures forall n :: 1 <= n <= 4 ==> HasPartition(Catalog(), n)
  {
    var vabs, vadda := IDef(0x1FD, "VABS", 1, true), IDef(0x2BC, "VADDA", 5, true);
    var vwaitq, vrxor := IDef(0x3BF, "VWAITQ", 0, false), IDef(0x43F, "VRXOR", 21, false);
    assert vabs in Catalog() && vadda in Catalog() && vwaitq in Catalog() && vrxor in Catalog();
    assert Partition(vabs.opcode) == 1 && Partition(vadda.opcode) == 2;
    assert Partition(vwaitq.opcode) == 3 && Partition(vrxor.opcode) == 4;
  }

  /** Three entries the worked examples use. */
  lemma CatalogExamples()
    ensures IDef(0x028, "VADD", 2, true) in Catalog()
    ensures IDef(0x3BF, "VWAITQ", 0, false) in Catalog()
    ensures IDef(0x032, "VIADDI", 15, false) in Catalog()
  {
  }

  /** Opcodes never decrease along t. */
  predicate SortedByOpcode(t: seq<IDef>)
  {
    forall i, j :: 0 <= i < j < |t| ==> t[i].opcode <= t[j].opcode
  }

  /** Opcodes strictly increase along t. */
  predicate StrictlyAscending(t: seq<IDef>)
  {
    forall i, j :: 0 <= i < j < |t| ==> t[i].opcode < t[j].opcode
  }

  /** Sorted with distinct opcodes is the same as strictly ascending. */
  lemma SortedDistinctAscending(t: seq<IDef>)
    ensures SortedByOpcode(t) && OpcodesDistinct(t) <==> StrictlyAscending(t)
  {
    if StrictlyAscending(t) {
      assert SortedByOpcode(t);
    }
  }

  /** With distinct opcodes, no entry occurs twice. */
  lemma {:induction false} DistinctOnce(t: seq<IDef>, x: IDef)
    requires OpcodesDistinct(t)
    ensures multiset(t)[x] <= 1
    decreases |t|
  {
    if |t| > 0 {
      var p := t[..|t| - 1];
      assert t == p + [t[|t| - 1]];
      assert OpcodesDistinct(p);
      DistinctOnce(p, x);
      if x == t[|t| - 1] {
        assert x !in p;
      }
    }
  }

  /** An entry at two positions occurs at least twice. */
  lemma CountTwo(t: seq<IDef>, i: int, j: int)
    requires 0 <= i < j < |t| && t[i] == t[j]
    ensures multiset(t)[t[i]] >= 2
  {
    assert t == t[..j] + t[j..];
    assert t[i] in t[..j];
    assert t[j] in t[j..];
  }

  /** Reordering a table keeps its opcodes distinct. */
  lemma PermutationKeepsDistinct(t: seq<IDef>, u: seq<IDef>)
    requires multiset(u) == multiset(t) && OpcodesDistinct(t)
    ensures OpcodesDistinct(u)
  {
    forall i, j | 0 <= i < j < |u|
      ensures u[i].opcode != u[j].opcode
    {
      if u[i] == u[j] {
        CountTwo(u, i, j);
        DistinctOnce(t, u[i]);
      } else {
        assert u[i] in multiset(t) && u[j] in multiset(t);
        var p :| 0 <= p < |t| && t[p] == u[i];
        var q :| 0 <= q < |t| && t[q] == u[j];
      }
    }
  }

  /** Reordering a table keeps every entry well formed. */
  lemma PermutationKeepsWellFormed(t: seq<IDef>, u: seq<IDef>)
    requires multiset(u) == multiset(t) && AllWellFormed(t)
    ensures AllWellFormed(u)
  {
    forall i | 0 <= i < |u|
      ensures WellFormedEntry(u[i])
    {
      assert u[i] in multiset(t);
      var p :| 0 <= p < |t| && t[p] == u[i];
    }
  }

  /** Sorts the table by opcode in place, by exchanging neighbours that are out of
      order. Opcodes are distinct, so every order-respecting sort gives this result. */
  method SortByOpcode(a: array<IDef>)
    modifies a
    ensures SortedByOpcode(a[..])
    ensures multiset(a[..]) == multiset(old(a[..]))
  {
    var i := 0;
    while i < a.Length
      invariant 0 <= i <= a.Length
      invariant forall k, l :: 0 <= k < l < i ==> a[k].opcode <= a[l].opcode
      invariant multiset(a[..]) == multiset(old(a[..]))
    {
      var j := i;
      while j > 0 && a[j - 1].opcode > a[j].opcode
        invariant 0 <= j <= i
        invariant forall k, l :: 0 <= k < l <= i && k != j && l != j ==> a[k].opcode <= a[l].opcode
        invariant forall l :: j < l <= i ==> a[j].opcode <= a[l].opcode
        invariant multiset(a[..]) == multiset(old(a[..]))
      {
        SwapDown(a, j);
        j := j - 1;
      }
      i := i + 1;
    }
  }

  /** Exchanges entries j - 1 and j. */
  method SwapDown(a: array<IDef>, j: int)
    requires 0 < j < a.Length
    modifies a
    ensures a[j - 1] == old(a[j]) && a[j] == old(a[j - 1])
    ensures forall k :: 0 <= k < a.Length && k != j - 1 && k != j ==> a[k] == old(a[k])
    ensures multiset(a[..]) == multiset(old(a[..]))
  {
    a[j - 1], a[j] := a[j], a[j - 1];
  }

  /** ASCII lowercasing of one character; every catalog name is ASCII. */
  function LowerChar(c: char): (d: char)
    ensures 'A' <= c <= 'Z' ==> 'a' <= d <= 'z' && d as int - c as int == 0x20
    ensures !('A' <= c <= 'Z') ==> d == c
  {
    if 'A' <= c <= 'Z' then (c as int + 0x20) as char else c
  }

  function Lower(s: string): (r: string)
    ensures |r| == |s|
    ensures forall k :: 0 <= k < |s| ==> r[k] == LowerChar(s[k])
  {
    seq(|s|, k requires 0 <= k < |s| => LowerChar(s[k]))
  }

  /** No upper-case ASCII letter in s. */
  predicate IsLower(s: string)
  {
    forall k :: 0 <= k < |s| ==> !('A' <= s[k] <= 'Z')
  }

  /** Lowering yields a lower-case name, leaves lower-case names alone, and keeps
      letters apart from other characters. */
  lemma LowerIsLower(s: string)
    ensures IsLower(Lower(s))
    ensures IsLower(s) ==> Lower(s) == s
    ensures forall k :: 0 <= k < |s| ==> ('a' <= s[k] <= 'z' || 'A' <= s[k] <= 'Z' <==> 'a' <= Lower(s)[k] <= 'z')
  {
  }

  /** The entry with its name lowered; the opcode, layout and dest flag are kept. */
  function Lowered(e: IDef): IDef
  {
    e.(name := Lower(e.name))
  }

  /** Every entry of t with its name lowered. */
  function LowerAll(t: seq<IDef>): (u: seq<IDef>)
    ensures |u| == |t|
    ensures forall k :: 0 <= k < |t| ==> u[k] == Lowered(t[k])
  {
    seq(|t|, k requires 0 <= k < |t| => Lowered(t[k]))
  }

  /** Lowering the names keeps the order, the opcodes and their partitions, and leaves
      every name lower case. */
  lemma LowerAllKeepsOrder(t: seq<IDef>)
    ensures SortedByOpcode(t) <==> SortedByOpcode(LowerAll(t))
    ensures OpcodesDistinct(t) <==> OpcodesDistinct(LowerAll(t))
    ensures forall k :: 0 <= k < |t| ==> IsLower(LowerAll(t)[k].name)
  {
    var u := LowerAll(t);
    forall k | 0 <= k < |t|
      ensures IsLower(u[k].name)
    {
      LowerIsLower(t[k].name);
    }
    assert forall k :: 0 <= k < |t| ==> u[k].opcode == t[k].opcode;
  }

  /** Lowers every mnemonic of the table in place. */
  method LowercaseNames(a: array<IDef>)
    modifies a
    ensures a[..] == LowerAll(old(a[..]))
  {
    var i := 0;
    while i < a.Length
      invariant 0 <= i <= a.Length
      invariant forall k :: 0 <= k < i ==> a[k] == Lowered(old(a[k]))
      invariant forall k :: i <= k < a.Length ==> a[k] == old(a[k])
    {
      a[i] := Lowered(a[i]);
      i := i + 1;
    }
  }

  /** Some entry of t has its opcode in partition n. */
  predicate HasPartition(t: seq<IDef>, n: int)
  {
    exists k :: 0 <= k < |t| && t[k].opcode >= 0 && Partition(t[k].opcode) == n
  }

  /** A table holding the entries of another holds entries in the same partitions. */
  lemma SameEntriesKeepPartitions(t: seq<IDef>, u: seq<IDef>)
    requires forall e :: e in t ==> e in u
    ensures forall n :: HasPartition(t, n) ==> HasPartition(u, n)
  {
    forall n | HasPartition(t, n)
      ensures HasPartition(u, n)
    {
      var k :| 0 <= k < |t| && t[k].opcode >= 0 && Partition(t[k].opcode) == n;
      assert t[k] in u;
      var m :| 0 <= m < |u| && u[m] == t[k];
    }
  }

  /** Lowering the names keeps every entry's partition. */
  lemma LowerAllKeepsPartitions(t: seq<IDef>)
    ensures forall n :: HasPartition(t, n) ==> HasPartition(LowerAll(t), n)
  {
    forall n | HasPartition(t, n)
      ensures HasPartition(LowerAll(t), n)
    {
      var k :| 0 <= k < |t| && t[k].opcode >= 0 && Partition(t[k].opcode) == n;
      assert LowerAll(t)[k].opcode == t[k].opcode;
    }
  }

  /** p is the first index of t whose opcode lies in partition n. */
  predicate IsFirstInPartition(t: seq<IDef>, n: int, p: int)
  {
    0 <= p < |t| && t[p].opcode >= 0 && Partition(t[p].opcode) == n &&
    forall k :: 0 <= k < p ==> t[k].opcode < 0 || Partition(t[k].opcode) != n
  }

  /** The scan start for partition n: the first index whose opcode lies in it, or None
      when no entry does. */
  method FirstInPartition(a: array<IDef>, n: int) returns (r: Option<nat>)
    ensures r.Some? ==> IsFirstInPartition(a[..], n, r.value)
    ensures r.None? ==> forall k :: 0 <= k < a.Length ==> a[k].opcode < 0 || Partition(a[k].opcode) != n
    ensures r.None? <==> !HasPartition(a[..], n)
  {
    var i := 0;
    while i < a.Length
      invariant 0 <= i <= a.Length
      invariant forall k :: 0 <= k < i ==> a[k].opcode < 0 || Partition(a[k].opcode) != n
    {
      if a[i].opcode >= 0 && Partition(a[i].opcode) == n {
        return Some(i);
      }
      i := i + 1;
    }
    return None;
  }

  /** The first index at or after start whose entry has opcode op. */
  function IndexFrom(t: seq<IDef>, start: nat, op: int): (r: Option<nat>)
    ensures r.Some? ==> start <= r.value < |t| && t[r.value].opcode == op
    ensures r.Some? ==> forall k :: start <= k < r.value ==> t[k].opcode != op
    ensures r.None? ==> forall k :: start <= k < |t| ==> t[k].opcode != op
    decreases |t| - start
  {
    if start >= |t| then None
    else if t[start].opcode == op then Some(start)
    else IndexFrom(t, start + 1, op)
  }

  /** Starting the scan past entries that all differ from op finds the same index. */
  lemma {:induction false} SkipDifferent(t: seq<IDef>, k: nat, p: nat, op: int)
    requires k <= p <= |t|
    requires forall m :: k <= m < p ==> t[m].opcode != op
    ensures IndexFrom(t, k, op) == IndexFrom(t, p, op)
    decreases p - k
  {
    if k < p {
      SkipDifferent(t, k + 1, p, op);
    }
  }

  /** Starting the scan at the first entry of the opcode's partition never skips the
      match: the result is that of a scan from index 0. */
  lemma PartitionStartSkipsNothing(t: seq<IDef>, n: int, p: int, op: int)
    requires IsFirstInPartition(t, n, p)
    requires 0 <= op && Partition(op) == n
    ensures IndexFrom(t, p, op) == IndexFrom(t, 0, op)
  {
    SkipDifferent(t, 0, p, op);
  }

  /** With distinct opcodes the index found is the only entry with that opcode, and no
      result means no entry has it. */
  lemma IndexUnique(t: seq<IDef>, op: int)
    requires OpcodesDistinct(t)
    ensures IndexFrom(t, 0, op).Some? <==> exists k :: 0 <= k < |t| && t[k].opcode == op
    ensures forall k :: 0 <= k < |t| && t[k].opcode == op ==> IndexFrom(t, 0, op) == Some(k)
  {
  }
}
