# Emotion Engine COP2 macro-mode decoder

This project models the instruction decoder of an IDA processor-module extension for
the PlayStation 2 Emotion Engine. The extension covers the COP2 (vector unit 0, macro
mode) computational instructions and proves properties of the model. It has five parts:

- **The instruction table.** There are 118 entries, each with an opcode, a mnemonic, an
  operand layout (0..22) and a flag saying whether the mnemonic takes a destination-mask
  suffix. The disassembler object sorts the table by opcode and lowercases every
  mnemonic when it is built. It also records the first index of each opcode partition
  0x100, 0x200, 0x300 and 0x400. The model is the class
  `Disassembler.Cop2Disassembler`; its table is an `array` that is sorted and
  lowercased in place.
- **The opcode resolver.** A word belongs to the extension when its top seven bits are
  0b0100101. Its opcode is the low eleven bits when bits 5..2 are all set, and the low
  six bits otherwise. The scan starts at the partition start and searches linearly for
  an entry with that opcode.
- **The field decoders.** There are 23 layout decoders. They extract ft (bits 20..16),
  fs (bits 15..11), fd or the immediate (bits 10..6), and the lane selectors (bits
  24..23 and 22..21). They write up to three operands of the instruction record
  `Fields.Insn`. A register class is then attached to each operand from the per-layout
  class table.
- **The register renderer.** It turns a (class, value) pair into `$vfN`, `$viN`,
  `$vfN.<lane>`, `$<letter>` or `UNK`.
- **The destination suffix.** It turns bits 24..21 into `.` followed by the letters x,
  y, z, w of the set bits.

The code lists 118 table entries, and the model has all of them.

## Model

| member | source | states |
|---|---|---|
| Words.IsCop2Word | ida-emotionengine.py:386 | a word is claimed exactly when it lies in 0x4A000000..0x4BFFFFFF, the words whose top seven bits are 0b0100101 |
| Words.HasWideOpcode | ida-emotionengine.py:388 | bits 5..2 are all set exactly when the low six bits of the word, as a number, are 0x3C or more |
| Words.Ft | ida-emotionengine.py:231 | the ft field is below 32; AssembleRegisters shows it reads back the ft an encoder put in |
| Words.Fs | ida-emotionengine.py:232 | the fs field is below 32; AssembleRegisters shows it reads back the fs an encoder put in |
| Words.Fd | ida-emotionengine.py:238 | the fd or immediate field is below 32; AssembleRegisters shows it reads back beside a 6-bit opcode |
| Words.Ftf | ida-emotionengine.py:290 | the ft lane selector is below 4; DestMask shows it is the upper half of the destination mask |
| Words.Fsf | ida-emotionengine.py:291 | the fs lane selector is below 4; DestMask shows it is the lower half of the destination mask |
| Words.OpcodeOf | ida-emotionengine.py:388-391 | the opcode is encodable (fits 11 bits, and is below 0x3C or has low six bits of at least 0x3C); it is 0x3C or more exactly when bits 5..2 of the word are all set, so the two widths never overlap |
| Words.OpcodeField | ida-emotionengine.py:388-391 | the opcode bits meet the bit-level encodability condition; they are 0x3C or more exactly when the word uses the 11-bit field |
| Words.DestMask | ida-emotionengine.py:472 | the destination mask is below 16; its upper half is the ft lane selector (bits 24..23) and its lower half is the fs lane selector (bits 22..21) |
| Words.PackField | ida-emotionengine.py:289-294 | a register number below 32 packed with a selector below 4 as `n \| f << 8` gives back n in its low byte and f above it, and stays below 0x400 |
| Words.AssembleOpcode | ida-emotionengine.py:386-391 | a word assembled from an encodable opcode is claimed by the extension and decodes to that opcode |
| Words.AssembleDest | ida-emotionengine.py:472 | a word assembled with a destination mask carries that mask |
| Words.AssembleRegisters | ida-emotionengine.py:230-239 | a word assembled with ft and fs decodes to them; fd survives only beside a 6-bit opcode |
| Words.DecodedFieldsAssemble | ida-emotionengine.py:386-391 | every extension word equals the assembly of its decoded opcode, mask, ft, fs and fd, so decoding loses no bit |
| Words.EncodableReachable | ida-emotionengine.py:388-391 | every encodable opcode is the opcode of some extension word, whatever mask and registers surround it |
| Words.ToBitsEncodable | ida-emotionengine.py:388-391 | the bits of an encodable opcode meet the bit-level condition the decoder tests |
| Fields.RegTypes | ida-emotionengine.py:162-186 | only layout 0 has no class; no layout lists more than three; every class is one of the four the renderer knows, so no operand renders as UNK; ClassesFitSources ties each list to the layout's operands |
| Fields.SourceValue | ida-emotionengine.py:230-357 | a register field is below 32; a lane field packs a number below 32 with a selector below 4; a control operand is its letter code |
| Fields.SetRegs2 | ida-emotionengine.py:213-217 | the first two operands become registers holding the two values; nothing else changes |
| Fields.SetRegs3 | ida-emotionengine.py:219-225 | the three operands become registers holding the three values; nothing else changes |
| Fields.DecodeType | ida-emotionengine.py:366-367 | dispatching on the layout writes each operand as the layout's field list prescribes and leaves the type and size alone |
| Fields.DecodeType0 | ida-emotionengine.py:227-228 | layout 0 marks the first operand empty and leaves the other operands |
| Fields.DecodeType1 | ida-emotionengine.py:230-233 | layout 1 writes ft, fs |
| Fields.DecodeType2 | ida-emotionengine.py:235-239 | layout 2 writes fd, fs, ft |
| Fields.DecodeType3 | ida-emotionengine.py:241-245 | layout 3 writes fd, fs, I |
| Fields.DecodeType4 | ida-emotionengine.py:247-251 | layout 4 writes fd, fs, Q |
| Fields.DecodeType5 | ida-emotionengine.py:253-256 | layout 5 writes ACC, fs, ft |
| Fields.DecodeType6 | ida-emotionengine.py:258-261 | layout 6 writes ACC, fs, I |
| Fields.DecodeType7 | ida-emotionengine.py:263-266 | layout 7 writes ACC, fs, Q |
| Fields.DecodeType8 | ida-emotionengine.py:268-271 | layout 8 writes ACC, fs, ft |
| Fields.DecodeType9 | ida-emotionengine.py:273-276 | layout 9 writes ACC, fs, ft |
| Fields.DecodeType10 | ida-emotionengine.py:278-282 | layout 10 writes fd, fs, ft |
| Fields.DecodeType11 | ida-emotionengine.py:284-287 | layout 11 writes fs, ft |
| Fields.DecodeType12 | ida-emotionengine.py:289-294 | layout 12 writes Q, then fs and ft each packed with its lane selector |
| Fields.DecodeType13 | ida-emotionengine.py:296-301 | layout 13 writes Q, then ft packed with its lane selector |
| Fields.DecodeType14 | ida-emotionengine.py:303-307 | layout 14 writes fd, fs, ft |
| Fields.DecodeType15 | ida-emotionengine.py:309-318 | layout 15 writes ft, fs and the immediate from bits 10..6 |
| Fields.DecodeType16 | ida-emotionengine.py:320-323 | layout 16 writes ft, fs |
| Fields.DecodeType17 | ida-emotionengine.py:325-328 | layout 17 writes ft, fs |
| Fields.DecodeType18 | ida-emotionengine.py:330-335 | layout 18 writes ft, then fs packed with its lane selector |
| Fields.DecodeType19 | ida-emotionengine.py:337-340 | layout 19 writes fs, ft |
| Fields.DecodeType20 | ida-emotionengine.py:342-345 | layout 20 writes ft, fs |
| Fields.DecodeType21 | ida-emotionengine.py:347-352 | layout 21 writes R, then fs packed with its lane selector |
| Fields.DecodeType22 | ida-emotionengine.py:354-357 | layout 22 writes ft, R |
| Fields.DecodeTypeAsWritten | ida-emotionengine.py:227-228 | the decoders as written fail exactly for layouts 0 and 15, and agree with the field lists everywhere else |
| Fields.ClassesFitSources | ida-emotionengine.py:162-186 | each layout's class list is as long as its operand list, except that layout 15 has one more operand (the immediate, left without a class); every listed class suits the operand in its slot |
| Fields.ReadsBitsTenToSixExact | ida-emotionengine.py:235-318 | the layouts that read bits 10..6 are exactly those with an fd or immediate operand |
| Fields.ControlLetters | ida-emotionengine.py:241-357 | every control operand a layout writes is the code of A, I, Q or R |
| Fields.FieldsIgnoreBitsTenToSix | ida-emotionengine.py:230-357 | a layout that does not read bits 10..6 decodes the same operands from two words that differ only there |
| Fields.FieldsAgree | ida-emotionengine.py:230-357 | words that agree outside bits 10..6 have the same ft, fs and lane selectors |
| Render.Decimal | ida-emotionengine.py:434 | the decimal text of a number is non-empty, all digits, and has no leading zero |
| Render.DecimalRoundTrip | ida-emotionengine.py:434 | reading the decimal text back gives the number |
| Render.DecodeRegField | ida-emotionengine.py:428-429 | a selector has a lane letter exactly when it is below 4, and the letter is one of x, y, z, w at that index |
| Render.GetRegister | ida-emotionengine.py:431-442 | the text is missing exactly when the lane selector has no letter; otherwise it is UNK or starts with "$", and a lane register ends in a dot and one of x, y, z, w; GetRegisterFails, RegisterRoundTrip and PackedFieldRenders state the rest |
| Render.GetRegisterFails | ida-emotionengine.py:431-442 | rendering fails exactly for a lane-register operand whose selector is 4 or more, the index error of the lane lookup |
| Render.RegisterRoundTrip | ida-emotionengine.py:431-442 | whenever the renderer produces text, parsing the text gives back the register the operand denotes |
| Render.NumberedRoundTrip | ida-emotionengine.py:433-436 | a prefix followed by a decimal number parses back to that number |
| Render.LaneRoundTrip | ida-emotionengine.py:437-438 | `$vf` followed by a number, a dot and a lane letter parses back to the number and the letter |
| Render.PackedFieldRenders | ida-emotionengine.py:437-438 | a packed lane field renders as `$vf`, the register number, a dot and the lane letter of its selector |
| Render.DecodeDest | ida-emotionengine.py:470-484 | the suffix built step by step equals the destination suffix of the word's mask |
| Render.LettersLength | ida-emotionengine.py:474-484 | the letters appended number exactly the set lanes |
| Render.DestSuffixLength | ida-emotionengine.py:470-484 | the suffix starts with a dot and is one longer than the number of set mask bits |
| Render.EmptyMaskIsDot | ida-emotionengine.py:470-484 | the suffix is exactly "." if and only if the mask is zero |
| Render.LettersFromLane | ida-emotionengine.py:474-484 | the letters appended from lane k on are only letters of lanes k and later |
| Render.LettersOrdered | ida-emotionengine.py:474-484 | the letters appear in the fixed order x, y, z, w |
| Render.LettersContain | ida-emotionengine.py:474-484 | a lane's letter is in the suffix if and only if its mask bit is set |
| Render.SuffixRoundTrip | ida-emotionengine.py:470-484 | the mask can be read back from the suffix, so distinct masks give distinct suffixes |
| Table.Catalog | ida-emotionengine.py:28-148 | the catalog has the 118 entries of the instruction list; CatalogWellFormed and CatalogHasPartitions state its properties |
| Table.CatalogWellFormed | ida-emotionengine.py:30-147 | the catalog has 118 entries, pairwise distinct opcodes, every opcode encodable, and every layout in 0..22 |
| Table.CatalogHasPartitions | ida-emotionengine.py:193-211 | each partition 0x100, 0x200, 0x300 and 0x400 holds a catalog entry, so every scan start is set |
| Table.Partition | ida-emotionengine.py:394-401 | an opcode's partition is its bits 11..8; an 11-bit opcode lies in the range of its partition |
| Table.SortedDistinctAscending | ida-emotionengine.py:188 | sorted with distinct opcodes is the same as strictly ascending |
| Table.DistinctOnce | ida-emotionengine.py:188 | with distinct opcodes no entry occurs twice |
| Table.PermutationKeepsDistinct | ida-emotionengine.py:188 | reordering the table keeps its opcodes distinct |
| Table.PermutationKeepsWellFormed | ida-emotionengine.py:188 | reordering the table keeps every entry well formed |
| Table.SortByOpcode | ida-emotionengine.py:188 | the table is sorted by opcode in place and is a permutation of the old table |
| Table.LowerChar | ida-emotionengine.py:190-191 | an upper-case letter becomes its lower-case letter; any other character is kept |
| Table.Lower | ida-emotionengine.py:190-191 | the lowered name has the same length, and each character is lowered |
| Table.LowerIsLower | ida-emotionengine.py:190-191 | a lowered name has no upper-case letter; lowering an already lower name changes nothing; letters stay letters |
| Table.LowerAll | ida-emotionengine.py:190-191 | every entry keeps its position, with its name lowered |
| Table.LowerAllKeepsOrder | ida-emotionengine.py:188-191 | lowering the names keeps sortedness and distinct opcodes in both directions, and every name ends up lower case |
| Table.LowercaseNames | ida-emotionengine.py:190-191 | every name of the table is lowered in place, and nothing else changes |
| Table.SameEntriesKeepPartitions | ida-emotionengine.py:188-211 | a table holding another's entries has entries in the same partitions |
| Table.LowerAllKeepsPartitions | ida-emotionengine.py:190-211 | lowering the names keeps every partition populated |
| Table.FirstInPartition | ida-emotionengine.py:193-211 | returns the first index in the partition, or None exactly when no entry lies in it |
| Table.IndexFrom | ida-emotionengine.py:403-409 | the scan from start finds the first index from start whose opcode matches, or None exactly when there is none |
| Table.SkipDifferent | ida-emotionengine.py:403-409 | a scan over entries with other opcodes finds what the scan after them finds |
| Table.PartitionStartSkipsNothing | ida-emotionengine.py:393-409 | starting the scan at the partition start finds what a scan from index 0 finds |
| Table.IndexUnique | ida-emotionengine.py:403-409 | in a table with distinct opcodes, the scan succeeds exactly when an entry has the opcode, and returns that entry's index |
| Disassembler.Cop2Disassembler.constructor | ida-emotionengine.py:11-211 | the built object holds the catalog sorted and lowercased, with the four partition starts, and its type base is the host's custom base plus 0x100 |
| Disassembler.Cop2Disassembler.SortedCatalog | ida-emotionengine.py:188 | a fresh array of 118 entries holds exactly the catalog's entries, sorted, distinct and well formed, with all four partitions populated |
| Disassembler.Cop2Disassembler.SortedCopy | ida-emotionengine.py:188 | a fresh array holds a sorted permutation of its argument |
| Disassembler.Cop2Disassembler.LowerAndLocate | ida-emotionengine.py:190-211 | the names are lowered in place and the four returned indices are the first of their partitions |
| Disassembler.Cop2Disassembler.TableFacts | ida-emotionengine.py:188-191 | the built table is strictly ascending by opcode, every name is lower case, and it holds exactly the catalog's entries with their names lowered |
| Disassembler.Cop2Disassembler.StartFor | ida-emotionengine.py:393-401 | the scan start is the first index of the opcode's partition for partitions 1 to 4, and index 0 otherwise |
| Disassembler.Cop2Disassembler.Resolve | ida-emotionengine.py:393-409 | the loop from the partition start finds an entry exactly when a scan of the whole table does, at the same index; otherwise the index is 0 |
| Disassembler.Cop2Disassembler.DecodeInstruction | ida-emotionengine.py:362-380 | the type becomes the base plus the index, the operands are those of the entry's layout with their classes attached, and the size becomes 4 |
| Disassembler.Cop2Disassembler.Analyze | ida-emotionengine.py:382-416 | a word outside the extension leaves the record alone and reports its size; an unknown opcode is declined with 0; a known one is decoded and reports 4 |
| Disassembler.Cop2Disassembler.OutMnemonic | ida-emotionengine.py:486-498 | an extension type gets the entry's name followed by the suffix when the entry takes one; any other type gets None |
| Disassembler.Cop2Disassembler.ResolvesEntry | ida-emotionengine.py:386-409 | a word carrying a catalog entry's opcode resolves to that entry, with its name lowered |
| Disassembler.Cop2Disassembler.ResolvesOpcode | ida-emotionengine.py:403-409 | the scan for a catalog entry's opcode succeeds, at that entry with its name lowered |
| Disassembler.Cop2Disassembler.EveryEntryResolves | ida-emotionengine.py:30-147 | every catalog entry is reachable: a word assembled from its opcode, with any mask and registers, is claimed and resolves to it |
| Disassembler.Mnemonic | ida-emotionengine.py:489-493 | the mnemonic starts with the entry's name; it is the name alone without a dest flag, and otherwise the name followed by the word's destination suffix |
| Disassembler.DecodedOperandRenders | ida-emotionengine.py:369-378 | every operand a layout gives a class to is a register with that class, renders to text, and parses back to a nameable register |
| Disassembler.SourceRenders | ida-emotionengine.py:431-442 | an operand of a suitable class renders and names a nameable register |
| Disassembler.NumberNameable | ida-emotionengine.py:433-436 | a float or integer register number below 32 is nameable |
| Disassembler.LaneNameable | ida-emotionengine.py:437-438 | a packed lane field names a nameable lane of a float register |
| Disassembler.ControlCharacters | ida-emotionengine.py:439-440 | the four control codes render as A, I, Q and R |
| Disassembler.VaddWord | ida-emotionengine.py:31 | the word 0x4BE519E8 carries VADD's opcode, layout 2 reads fd = 7, fs = 3 and ft = 5, and the mnemonic is "vadd.xyzw" |
| Disassembler.VwaitqWord | ida-emotionengine.py:147 | the word 0x4A0003BF carries VWAITQ's opcode, and layout 0 fails as written |
| Disassembler.ViaddiWord | ida-emotionengine.py:309-318 | the word 0x4A020972 carries VIADDI's opcode, and layout 15 fails as written while the corrected decoder stores the immediate 5 |
| Disassembler.Cop2Disassembler.VaddExample | ida-emotionengine.py:31 | the built disassembler resolves 0x4BE519E8 to "vadd" of layout 2 and prints it as "vadd.xyzw" |
| Disassembler.Cop2Disassembler.LayoutZeroFailsAsWritten | ida-emotionengine.py:227-228 | the built disassembler resolves 0x4A0003BF to "vwaitq" of layout 0, which the decoder as written cannot decode |
| Disassembler.Cop2Disassembler.LayoutFifteenFailsAsWritten | ida-emotionengine.py:309-318 | the built disassembler resolves 0x4A020972 to "viaddi" of layout 15, which the decoder as written cannot decode |

## Left out

- The plugin lifecycle is not modelled: the plugin class, hooking and unhooking, and the entry point. It is host plumbing.
- The emulation hook is not modelled. It only tests that the type lies in the extension's range.
- The host's memory read of the instruction word is not modelled. The word is a parameter of `Analyze` and `OutMnemonic`.
- The host constant `CUSTOM_INSN_ITYPE` is a constructor parameter.
- The operand output hook is not modelled: the host's `out_register` call, and the fix-ups for CFC2, CTC2, QMFC2, QMTC2, LQC2 and SQC2 that the host's MIPS module decodes. Only its extension branch's text, the renderer `get_register`, is modelled.
- Disassembler.Cop2Disassembler.OutMnemonic returns the mnemonic text instead of handing it to the host. The `MNEM_WIDTH` padding and the host's own mnemonic output, returned as None, are not modelled.
- The table's comment strings are not modelled, and neither is the commented-out auto-comment hook. They are documentation only.
- The entry's `ft` field is not modelled. It is a small integer (0 to 5) that the decoder never reads.
- The reflective lookup of a decoder by name is replaced by a `match` over the layout.
- Table.SortByOpcode is an insertion sort, not the host language's sort. Opcodes are distinct, so every sort by opcode gives the same table, and stability plays no part.
- Table.Lower lowers only ASCII letters. Every catalog name is ASCII.
- Render.CodeChar renders a 16-bit code in the surrogate range as U+FFFD. No layout produces such a code: the control codes are A, I, Q and R.
- If a partition held no entry, the source would leave that partition's start unset. This case is not modelled: the catalog has an entry in each of the four partitions, and the constructor proves it.
- The instruction record keeps only the fields the decoder writes: the type, the size, and each operand's type, register, value and class. The source's operand types `o_idpspec1`, `o_void` and `o_imm` become `RegOperand`, `NoOperand` and `ImmOperand`.
- Layout 15's immediate operand gets no register class, as in the source. The model leaves its class as it was.
- The decoder as written fails for layouts 0 and 15; see Findings. The rest of the model uses the corrected decoders, `Fields.DecodeType0` and `Fields.DecodeType15`.

## Findings

| source | as written | input that shows it | evidently intended | confidence | as-written member | corrected member |
|---|---|---|---|---|---|---|
| ida-emotionengine.py:227-228 | the layout-0 decoder takes only the instruction, yet the dispatcher (line 367) passes the word too; it also assigns `o_void`, which is never imported | word 0x4A0003BF (VWAITQ, layout 0), and likewise VNOP | the first operand is marked empty and decoding completes with size 4; as written, only the type set at line 364 is written before the error | high, not executed | Disassembler.Cop2Disassembler.LayoutZeroFailsAsWritten | Fields.DecodeType0 |
| ida-emotionengine.py:309-318 | after writing ft and fs, the layout-15 decoder assigns `o_imm`, which is never imported, so the immediate is never stored | word 0x4A020972 (VIADDI $vi2, $vi1, 5) | the third operand is the immediate 5 from bits 10..6; as written, the type (line 364) and the first two operands (lines 313-316) are written before the error | high, not executed | Disassembler.Cop2Disassembler.LayoutFifteenFailsAsWritten | Fields.DecodeType15 |
