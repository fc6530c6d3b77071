/** The COP2 macro-mode disassembler as the host sees it: built once from the catalog,
    it claims extension words, resolves their opcode against the sorted table, fills
    in the instruction record and chooses the printed mnemonic. */
module Disassembler {
  import opened Words
  import opened Fields
  import opened Table
  import opened Render
  import opened Wrappers

  /** The mnemonic printed for an entry: its name, followed by the destination-mask
      suffix of the word when the entry takes one. */
  function Mnemonic(e: IDef, w: Word): (s: string)
    ensures |s| >= |e.name| && s[..|e.name|] == e.name
    ensures !e.dest ==> s == e.name
    ensures e.dest ==> s[|e.name|..] == DestSuffix(DestMask(w))
  {
    e.name + (if e.dest then DestSuffix(DestMask(w)) else "")
  }

  /** What a rendered operand may name: one of the 32 float or integer registers, a
      float register with a lane letter, or one of the control registers A, I, Q, R. */
  predicate Nameable(r: RegisterName)
  {
    match r
    case VectorFloat(n) => n < 32
    case VectorInteger(n) => n < 32
    case VectorFloatLane(n, lane) => n < 32 && lane in "xyzw"
    case ControlRegister(letter) => letter in "AIQR"
    case Unknown => false
  }

  /** Every operand slot a layout attaches a register class to is decoded as a register
      whose text the renderer produces and reads back as a nameable register. */
  lemma DecodedOperandRenders(slot: Slot, dt: Layout, k: nat, w: Word)
    requires k < |RegTypes(dt)|
    ensures var s := Classified(Filled(slot, dt, k, w), dt, k);
      s.kind == RegOperand && s.specval == RegTypes(dt)[k] &&
      GetRegister(s.specval, s.reg).Some? &&
      ParseRegister(GetRegister(s.specval, s.reg).value) == Denotes(s.specval, s.reg) &&
      Denotes(s.specval, s.reg).Some? && Nameable(Denotes(s.specval, s.reg).value)
  {
    ClassesFitSources(dt);
    var src := LayoutSources(dt)[k];
    if src.Control? {
      ControlLetters(dt, k);
    }
    SourceRenders(RegTypes(dt)[k], src, w);
    var s := Classified(Filled(slot, dt, k, w), dt, k);
    RegisterRoundTrip(s.specval, s.reg);
  }

  /** A register read from a source of a class that suits it renders and names a
      nameable register. */
  lemma SourceRenders(c: int, src: Source, w: Word)
    requires ClassFits(c, src)
    requires src.Control? ==> src.code in {AccCode, ICode, QCode, RCode}
    ensures var reg := SourceValue(src, w);
      GetRegister(c, reg).Some? && Denotes(c, reg).Some? && Nameable(Denotes(c, reg).value)
  {
    var reg := SourceValue(src, w);
    GetRegisterFails(c, reg);
    if src.Control? {
      ControlCharacters(src.code);
    } else if src.FsLane? || src.FtLane? {
      LaneNameable(reg);
    } else {
      NumberNameable(c, reg);
    }
  }

  /** A register number below 32 names a nameable float or integer register. */
  lemma NumberNameable(c: int, reg: bv16)
    requires c == VfReg || c == ViReg
    requires reg < 32
    ensures Denotes(c, reg).Some? && Nameable(Denotes(c, reg).value)
  {
  }

  /** A packed field with a number below 32 and a selector below 4 names a nameable
      lane of a float register. */
  lemma LaneNameable(reg: bv16)
    requires reg & 0xFF < 32 && reg >> 8 < 4
    ensures Denotes(VfRegWithF, reg).Some? && Nameable(Denotes(VfRegWithF, reg).value)
  {
  }

  /** The four control codes are the characters A, I, Q and R. */
  lemma ControlCharacters(code: bv16)
    requires code in {AccCode, ICode, QCode, RCode}
    ensures CodeChar(code) in "AIQR"
    ensures Denotes(CtlReg, code) == Some(ControlRegister(CodeChar(code)))
  {
    assert CodeChar(AccCode) == 'A' && CodeChar(ICode) == 'I';
    assert CodeChar(QCode) == 'Q' && CodeChar(RCode) == 'R';
  }

  /** The word 0x4BE519E8 is VADD with destination xyzw, fd = 7, fs = 3 and ft = 5:
      layout 2 decodes the operands in the order fd, fs, ft, and the lowered entry
      prints as "vadd.xyzw". */
  lemma VaddWord(slot: Slot)
    ensures var w: Word := 0x4BE519E8;
      var e := Lowered(IDef(0x028, "VADD", 2, true));
      IsCop2Word(w) && OpcodeOf(w) == 0x028 && e.name == "vadd" &&
      Filled(slot, 2, 0, w).reg == 7 && Filled(slot, 2, 1, w).reg == 3 &&
      Filled(slot, 2, 2, w).reg == 5 &&
      Mnemonic(e, w) == "vadd.xyzw"
  {
    var w: Word := 0x4BE519E8;
    assert Lower("VADD") == "vadd";
    assert Lanes(DestMask(w)) == [true, true, true, true];
  }

  /** The word 0x4A0003BF carries VWAITQ's opcode 0x3BF; layout 0 cannot be decoded as
      written, and DecodeType marks the first operand empty. */
  lemma VwaitqWord(op1: Slot, op2: Slot, op3: Slot)
    ensures var w: Word := 0x4A0003BF;
      IsCop2Word(w) && OpcodeOf(w) == 0x3BF &&
      Lowered(IDef(0x3BF, "VWAITQ", 0, false)).name == "vwaitq" &&
      DecodeTypeAsWritten(op1, op2, op3, 0, w).None? &&
      Filled(op1, 0, 0, w).kind == NoOperand
  {
    assert Lower("VWAITQ") == "vwaitq";
  }

  /** The word 0x4A020972 is VIADDI with ft = 2, fs = 1 and immediate 5; layout 15
      cannot be decoded as written, and DecodeType stores the immediate in the third
      operand. */
  lemma ViaddiWord(op1: Slot, op2: Slot, op3: Slot)
    ensures var w: Word := 0x4A020972;
      IsCop2Word(w) && OpcodeOf(w) == 0x032 &&
      Lowered(IDef(0x032, "VIADDI", 15, false)).name == "viaddi" &&
      DecodeTypeAsWritten(op1, op2, op3, 15, w).None? &&
      Filled(op3, 15, 2, w).kind == ImmOperand && Filled(op3, 15, 2, w).value == 5
  {
    assert Lower("VIADDI") == "viaddi";
  }

  /** The disassembler: the catalog sorted by opcode with lower-case names, and the
      first index of each of the partitions 0x100 to 0x400. */
  class Cop2Disassembler {
    /** The first instruction type number of the extension, 0x100 past the host's first
        custom number. */
    const itypeStart: int
    const itable: array<IDef>
    const pos100: nat
    const pos200: nat
    const pos300: nat
    const pos400: nat
    /** The catalog the table was built from, in declaration order. */
    ghost const catalog: seq<IDef>
    /** The table after sorting and before the names were lowered. */
    ghost const sorted: seq<IDef>

    /** The sorted table holds the catalog's entries, as many as the catalog has, with
        distinct opcodes (so it is a reordering of the catalog), is sorted by opcode,
        and the table is it with the names lowered; the partition starts are right. */
    ghost predicate Valid()
      reads itable
    {
      itable.Length == 118 &&
      |sorted| == |catalog| && (forall e :: e in catalog <==> e in sorted) &&
      SortedByOpcode(sorted) && OpcodesDistinct(sorted) && AllWellFormed(sorted) &&
      itable[..] == LowerAll(sorted) &&
      IsFirstInPartition(itable[..], 1, pos100) &&
      IsFirstInPartition(itable[..], 2, pos200) &&
      IsFirstInPartition(itable[..], 3, pos300) &&
      IsFirstInPartition(itable[..], 4, pos400)
    }

    /** Builds the table: the catalog in declaration order, sorted by opcode, names
        lowered, then the start of each partition located. */
    constructor (customInsnItype: int)
      ensures Valid() && catalog == Catalog() && fresh(itable)
      ensures itypeStart == customInsnItype + 0x100
    {
      var a, c := SortedCatalog();
      ghost var s := a[..];
      var p1, p2, p3, p4 := LowerAndLocate(a);
      itypeStart := customInsnItype + 0x100;
      itable := a;
      catalog := c;
      sorted := s;
      pos100, pos200, pos300, pos400 := p1, p2, p3, p4;
    }

    /** Lowers the names of a sorted table and locates the start of each partition. */
    static method LowerAndLocate(a: array<IDef>) returns (p1: nat, p2: nat, p3: nat, p4: nat)
      requires forall n :: 1 <= n <= 4 ==> HasPartition(a[..], n)
      modifies a
      ensures a[..] == LowerAll(old(a[..]))
      ensures IsFirstInPartition(a[..], 1, p1) && IsFirstInPartition(a[..], 2, p2)
      ensures IsFirstInPartition(a[..], 3, p3) && IsFirstInPartition(a[..], 4, p4)
    {
      ghost var s := a[..];
      LowercaseNames(a);
      LowerAllKeepsPartitions(s);
      var r1 := FirstInPartition(a, 1);
      var r2 := FirstInPartition(a, 2);
      var r3 := FirstInPartition(a, 3);
      var r4 := FirstInPartition(a, 4);
      p1, p2, p3, p4 := r1.value, r2.value, r3.value, r4.value;
    }

    /** The catalog copied into a fresh array and sorted there. */
    static method SortedCatalog() returns (a: array<IDef>, ghost c: seq<IDef>)
      ensures c == Catalog()
      ensures fresh(a) && a.Length == |c| == 118
      ensures SortedByOpcode(a[..]) && OpcodesDistinct(a[..]) && AllWellFormed(a[..])
      ensures forall e :: e in c <==> e in a[..]
      ensures forall n :: 1 <= n <= 4 ==> HasPartition(a[..], n)
    {
      CatalogWellFormed();
      CatalogHasPartitions();
      var catalog := Catalog();
      c := catalog;
      a := SortedCopy(catalog);
    }

    /** A table copied into a fresh array and sorted there: the copy holds the same
        entries, so it keeps their distinct opcodes, their well-formedness and their
        partitions. */
    static method SortedCopy(c: seq<IDef>) returns (a: array<IDef>)
      requires OpcodesDistinct(c) && AllWellFormed(c)
      ensures fresh(a) && a.Length == |c|
      ensures SortedByOpcode(a[..]) && OpcodesDistinct(a[..]) && AllWellFormed(a[..])
      ensures forall e :: e in c <==> e in a[..]
      ensures forall n :: HasPartition(c, n) ==> HasPartition(a[..], n)
    {
      a := new IDef[|c|](i requires 0 <= i < |c| => c[i]);
      assert a[..] == c;
      SortByOpcode(a);
      PermutationKeepsDistinct(c, a[..]);
      PermutationKeepsWellFormed(c, a[..]);
      assert forall e :: e in c <==> e in multiset(a[..]);
      SameEntriesKeepPartitions(c, a[..]);
    }

    /** The built table is strictly ascending by opcode, every name is lower case, and
        it holds exactly the catalog's entries with their names lowered. */
    lemma TableFacts()
      requires Valid()
      ensures StrictlyAscending(itable[..]) && OpcodesDistinct(itable[..])
      ensures AllWellFormed(itable[..])
      ensures forall k :: 0 <= k < itable.Length ==> IsLower(itable[k].name)
      ensures forall e :: e in catalog ==> Lowered(e) in itable[..]
      ensures forall k :: 0 <= k < itable.Length ==>
        exists e :: e in catalog && itable[k] == Lowered(e)
    {
      LowerAllKeepsOrder(sorted);
      SortedDistinctAscending(itable[..]);
      forall k | 0 <= k < itable.Length
        ensures sorted[k] in catalog && itable[k] == Lowered(sorted[k])
      {
        assert sorted[k] in sorted;
      }
      forall e | e in catalog
        ensures Lowered(e) in itable[..]
      {
        var k :| 0 <= k < |sorted| && sorted[k] == e;
        assert itable[..][k] == Lowered(e);
      }
      forall k | 0 <= k < itable.Length
        ensures WellFormedEntry(itable[..][k])
      {
        assert WellFormedEntry(sorted[k]);
      }
    }

    /** Where the scan for an opcode starts: the first entry of its partition for the
        partitions 0x100 to 0x400, index 0 for any other. */
    function StartFor(op: int): (p: nat)
      requires Valid() && 0 <= op
      reads itable
      ensures p < itable.Length
      ensures 1 <= Partition(op) <= 4 ==> IsFirstInPartition(itable[..], Partition(op), p)
      ensures !(1 <= Partition(op) <= 4) ==> p == 0
    {
      var n := Partition(op);
      if n == 1 then pos100
      else if n == 2 then pos200
      else if n == 3 then pos300
      else if n == 4 then pos400
      else 0
    }

    /** The table search: a linear scan from the partition start for an entry with the
        opcode. It finds what a scan of the whole table would find. */
    method Resolve(op: int) returns (found: bool, index: int)
      requires Valid() && 0 <= op
      ensures found <==> IndexFrom(itable[..], 0, op).Some?
      ensures found ==> IndexFrom(itable[..], 0, op) == Some(index)
      ensures !found ==> index == 0
    {
      var pos := StartFor(op);
      found := false;
      index := 0;
      var i := pos;
      while i < itable.Length
        invariant pos <= i <= itable.Length
        invariant IndexFrom(itable[..], pos, op) == IndexFrom(itable[..], i, op)
      {
        if itable[i].opcode == op {
          found := true;
          index := i;
          break;
        }
        i := i + 1;
      }
      if 1 <= Partition(op) <= 4 {
        PartitionStartSkipsNothing(itable[..], Partition(op), pos, op);
      }
    }

    /** Fills in the record for table entry index: the instruction type, the operands
        of its layout, their register classes, and the size of 4 bytes. */
    method DecodeInstruction(index: int, insn: Insn, w: Word)
      requires Valid() && 0 <= index < itable.Length
      modifies insn
      ensures insn.itype == itypeStart + index && insn.size == 4
      ensures var dt := itable[index].dt;
        insn.op1 == Classified(Filled(old(insn.op1), dt, 0, w), dt, 0) &&
        insn.op2 == Classified(Filled(old(insn.op2), dt, 1, w), dt, 1) &&
        insn.op3 == Classified(Filled(old(insn.op3), dt, 2, w), dt, 2)
    {
      insn.itype := itypeStart + index;
      var dt := itable[index].dt;
      DecodeType(insn, dt, w);
      var regs := RegTypes(dt);
      if |regs| == 2 {
        insn.op1 := insn.op1.(specval := regs[0]);
        insn.op2 := insn.op2.(specval := regs[1]);
      } else if |regs| == 3 {
        insn.op1 := insn.op1.(specval := regs[0]);
        insn.op2 := insn.op2.(specval := regs[1]);
        insn.op3 := insn.op3.(specval := regs[2]);
      }
      insn.size := 4;
    }

    /** The analysis hook: a word outside the extension leaves the record alone and
        reports its current size; an extension word whose opcode is in no entry is
        declined with 0; any other is decoded and reports 4. */
    method Analyze(insn: Insn, w: Word) returns (size: int)
      requires Valid()
      modifies insn
      ensures !IsCop2Word(w) ==> unchanged(insn) && size == insn.size
      ensures IsCop2Word(w) && IndexFrom(itable[..], 0, OpcodeOf(w)).None? ==>
        unchanged(insn) && size == 0
      ensures IsCop2Word(w) && IndexFrom(itable[..], 0, OpcodeOf(w)).Some? ==>
        var index := IndexFrom(itable[..], 0, OpcodeOf(w)).value;
        var dt := itable[index].dt;
        size == 4 && insn.size == 4 && insn.itype == itypeStart + index &&
        insn.op1 == Classified(Filled(old(insn.op1), dt, 0, w), dt, 0) &&
        insn.op2 == Classified(Filled(old(insn.op2), dt, 1, w), dt, 1) &&
        insn.op3 == Classified(Filled(old(insn.op3), dt, 2, w), dt, 2)
    {
      if IsCop2Word(w) {
        var opcode := OpcodeOf(w);
        var found, index := Resolve(opcode);
        if !found {
          return 0;
        }
        DecodeInstruction(index, insn, w);
      }
      size := insn.size;
    }

    /** The mnemonic hook: for an instruction type of the extension, the entry's name
        with its destination suffix; None for any other type, which the host prints
        itself. */
    method OutMnemonic(itype: int, w: Word) returns (r: Option<string>)
      requires Valid()
      ensures r.Some? <==> itypeStart <= itype < itypeStart + itable.Length
      ensures r.Some? ==> r.value == Mnemonic(itable[itype - itypeStart], w)
    {
      if itypeStart <= itype < itypeStart + itable.Length {
        var e := itable[itype - itypeStart];
        var dest := "";
        if e.dest {
          dest := DecodeDest(w);
        }
        return Some(e.name + dest);
      }
      return None;
    }

    /** A word carrying the opcode of a catalog entry resolves to that entry, with its
        name lowered, and to no other. */
    lemma ResolvesEntry(e: IDef, w: Word)
      requires Valid() && e in catalog && IsCop2Word(w) && OpcodeOf(w) == e.opcode
      ensures IndexFrom(itable[..], 0, OpcodeOf(w)).Some?
      ensures itable[IndexFrom(itable[..], 0, OpcodeOf(w)).value] == Lowered(e)
    {
      ResolvesOpcode(e);
    }

    /** A catalog entry's opcode is found, at the entry with its name lowered. */
    lemma ResolvesOpcode(e: IDef)
      requires Valid() && e in catalog
      ensures IndexFrom(itable[..], 0, e.opcode).Some?
      ensures itable[IndexFrom(itable[..], 0, e.opcode).value] == Lowered(e)
    {
      TableFacts();
      var t := itable[..];
      var k :| 0 <= k < |t| && t[k] == Lowered(e);
      IndexUnique(t, e.opcode);
      assert IndexFrom(t, 0, e.opcode) == Some(k);
    }

    /** Every catalog entry is reachable: the word assembled from its opcode, with any
        destination mask and registers, is claimed and resolves to it. */
    lemma EveryEntryResolves(e: IDef, dest: bv32, ft: bv32, fs: bv32, fd: bv32)
      requires Valid() && e in catalog
      requires dest < 16 && ft < 32 && fs < 32 && fd < 32
      ensures Encodable(e.opcode) && EncodableBits(ToBits(e.opcode))
      ensures var w := Assemble(ToBits(e.opcode), dest, ft, fs, fd);
        IsCop2Word(w) && IndexFrom(itable[..], 0, OpcodeOf(w)).Some? &&
        itable[IndexFrom(itable[..], 0, OpcodeOf(w)).value] == Lowered(e)
    {
      TableFacts();
      var k :| 0 <= k < itable.Length && itable[k] == Lowered(e);
      assert WellFormedEntry(itable[..][k]);
      EncodableReachable(e.opcode, dest, ft, fs, fd);
      ResolvesEntry(e, Assemble(ToBits(e.opcode), dest, ft, fs, fd));
    }

    /** VADD with destination xyzw, fd = 7, fs = 3 and ft = 5 is the word 0x4BE519E8:
        it resolves to "vadd", its operands are fd, fs, ft as float registers, and its
        mnemonic is "vadd.xyzw". */
    lemma VaddExample(slot: Slot)
      requires Valid() && catalog == Catalog()
      ensures var w: Word := 0x4BE519E8;
        IsCop2Word(w) && OpcodeOf(w) == 0x028 &&
        IndexFrom(itable[..], 0, 0x028).Some? &&
        var e := itable[IndexFrom(itable[..], 0, 0x028).value];
        e.name == "vadd" && e.dt == 2 &&
        Filled(slot, 2, 0, w).reg == 7 && Filled(slot, 2, 1, w).reg == 3 &&
        Filled(slot, 2, 2, w).reg == 5 &&
        Mnemonic(e, w) == "vadd.xyzw"
    {
      var w: Word := 0x4BE519E8;
      var vadd := IDef(0x028, "VADD", 2, true);
      CatalogExamples();
      ResolvesEntry(vadd, w);
      VaddWord(slot);
    }

    /** VWAITQ is the word 0x4A0003BF: it resolves to an entry of layout 0, which the
        decoders as written cannot decode, while DecodeType marks its first operand
        empty. */
    lemma LayoutZeroFailsAsWritten(op1: Slot, op2: Slot, op3: Slot)
      requires Valid() && catalog == Catalog()
      ensures var w: Word := 0x4A0003BF;
        IsCop2Word(w) && IndexFrom(itable[..], 0, OpcodeOf(w)).Some? &&
        var e := itable[IndexFrom(itable[..], 0, OpcodeOf(w)).value];
        e.name == "vwaitq" && e.dt == 0 &&
        DecodeTypeAsWritten(op1, op2, op3, e.dt, w).None? &&
        Filled(op1, e.dt, 0, w).kind == NoOperand
    {
      var w: Word := 0x4A0003BF;
      var vwaitq := IDef(0x3BF, "VWAITQ", 0, false);
      CatalogExamples();
      VwaitqWord(op1, op2, op3);
      ResolvesEntry(vwaitq, w);
    }

    /** VIADDI with ft = 2, fs = 1 and immediate 5 is the word 0x4A020972: it resolves
        to an entry of layout 15, which the decoders as written cannot decode, while
        DecodeType stores the immediate in the third operand. */
    lemma LayoutFifteenFailsAsWritten(op1: Slot, op2: Slot, op3: Slot)
      requires Valid() && catalog == Catalog()
      ensures var w: Word := 0x4A020972;
        IsCop2Word(w) && IndexFrom(itable[..], 0, OpcodeOf(w)).Some? &&
        var e := itable[IndexFrom(itable[..], 0, OpcodeOf(w)).value];
        e.name == "viaddi" && e.dt == 15 &&
        DecodeTypeAsWritten(op1, op2, op3, e.dt, w).None? &&
        Filled(op3, e.dt, 2, w).kind == ImmOperand && Filled(op3, e.dt, 2, w).value == 5
    {
      var w: Word := 0x4A020972;
      var viaddi := IDef(0x032, "VIADDI", 15, false);
      CatalogExamples();
      ViaddiWord(op1, op2, op3);
      ResolvesEntry(viaddi, w);
    }
  }
}
