# X86 Intel-syntax assembly printer: operand and memory-size printing

This project models the visible logic of `X86IntelAsmPrinter`, the LLVM X86
back-end pass that writes machine instructions as Intel-syntax assembly text.
Apart from `getPassName`, which only returns the pass's name, two groups of
methods have bodies in the class declaration, and they are what is modelled:

- `printOperand`, which is used by the generated instruction printer: a
  machine register is written by its name from the target's register table
  (and must be a physical register); any other operand is
  handed to `printOp` with the caller's modifier.
- the eight memory-operand printers `printi8mem` … `printf128mem`, each of
  which writes a fixed size keyword (`BYTE PTR `, `WORD PTR `, `DWORD PTR `,
  `QWORD PTR `, `XMMWORD PTR `) and then lets `printMemReference` write the
  address.

Files:

- `intel_asm_printer.dfy`, module `IntelAsmPrinter`: the class
  `X86IntelAsmPrinter`. The stream `O` is the field `out: string`; every
  printing method states that it appends its text to `out` and leaves what
  was there before unchanged. The collaborators whose bodies are not part of
  this model — the register descriptor table, `MRegisterInfo::isPhysicalRegister`,
  `printOp` and `printMemReference` — are function-valued constants given to
  the constructor, so the model assumes nothing about their text.
- `size_directive.dfy`, module `SizeDirective`: the access kinds of the eight
  memory printers, their widths, the keyword each writes, and a reader that
  takes a keyword back off printed text. The postcondition of `SizeKeyword`
  states that every keyword ends in ` PTR `; the lemmas show that two printers
  write the same keyword exactly when they are declared with the same width,
  and that the text of any memory printer reads back as its declared width
  followed by exactly the address text.
- `machine_code.dfy`, module `MachineCode`: the instruction and operand
  values the printer reads (`MachineInstr`, `MachineOperand`).
- `wrappers.dfy`, module `Wrappers`: `Option`, used for the modifier (a C
  string pointer that may be null) and for the reader's result.

The precondition `opNo < |mi.operands|` of `PrintOperand` is the range check
that `MachineInstr::getOperand` asserts; the precondition that a machine
register is physical is the `assert` at line 41 of the header.

## Model

| member | source | states |
|---|---|---|
| IntelAsmPrinter.X86IntelAsmPrinter.PrintOperand | lib/Target/X86/X86IntelAsmPrinter.h:37-46 | requires the operand index in range and a machine-register operand to be physical; a machine register appends exactly its table name whatever the modifier; any other operand appends exactly printOp's text for that operand and the same modifier; earlier output is kept |
| IntelAsmPrinter.X86IntelAsmPrinter.PrintI8Mem | lib/Target/X86/X86IntelAsmPrinter.h:48-51 | appends the 8-bit keyword then exactly printMemReference's text for the same instruction and operand index; earlier output is kept |
| IntelAsmPrinter.X86IntelAsmPrinter.PrintI16Mem | lib/Target/X86/X86IntelAsmPrinter.h:52-55 | appends the 16-bit keyword then exactly printMemReference's text for the same instruction and operand index |
| IntelAsmPrinter.X86IntelAsmPrinter.PrintI32Mem | lib/Target/X86/X86IntelAsmPrinter.h:56-59 | appends the 32-bit keyword then exactly printMemReference's text for the same instruction and operand index |
| IntelAsmPrinter.X86IntelAsmPrinter.PrintI64Mem | lib/Target/X86/X86IntelAsmPrinter.h:60-63 | appends the 64-bit keyword then exactly printMemReference's text for the same instruction and operand index |
| IntelAsmPrinter.X86IntelAsmPrinter.PrintI128Mem | lib/Target/X86/X86IntelAsmPrinter.h:64-67 | appends the 128-bit keyword then exactly printMemReference's text for the same instruction and operand index |
| IntelAsmPrinter.X86IntelAsmPrinter.PrintF32Mem | lib/Target/X86/X86IntelAsmPrinter.h:68-71 | appends the keyword of the 32-bit access kind (the same as printi32mem's, by SameKeywordIffSameWidth) then printMemReference's text |
| IntelAsmPrinter.X86IntelAsmPrinter.PrintF64Mem | lib/Target/X86/X86IntelAsmPrinter.h:72-75 | appends the keyword of the 64-bit access kind (the same as printi64mem's) then printMemReference's text |
| IntelAsmPrinter.X86IntelAsmPrinter.PrintF128Mem | lib/Target/X86/X86IntelAsmPrinter.h:76-79 | appends the keyword of the 128-bit access kind (the same as printi128mem's) then printMemReference's text |
| IntelAsmPrinter.X86IntelAsmPrinter.PrintOp | lib/Target/X86/X86IntelAsmPrinter.h:87 | appends exactly the (unmodelled) text of printOp for the operand and modifier |
| IntelAsmPrinter.X86IntelAsmPrinter.PrintMemReference | lib/Target/X86/X86IntelAsmPrinter.h:89 | appends exactly the (unmodelled) address text for the instruction and operand index |
| IntelAsmPrinter.X86IntelAsmPrinter.constructor | lib/Target/X86/X86IntelAsmPrinter.h:24 | a printer over an empty stream with the given register table and collaborators |
| SizeDirective.BitWidth | lib/Target/X86/X86IntelAsmPrinter.h:48-79 | the width each printer is declared for is one of 8, 16, 32, 64, 128 bits |
| SizeDirective.SizeKeyword | lib/Target/X86/X86IntelAsmPrinter.h:48-79 | the keyword written by each printer is longer than and ends in " PTR " |
| SizeDirective.ReadSizeDirective | lib/Target/X86/X86IntelAsmPrinter.h:48-79 | reading printed text: a result is an integer kind whose keyword, followed by the rest, is the text; None only when no printer's keyword begins the text |
| SizeDirective.ReadBackSizeKeyword | lib/Target/X86/X86IntelAsmPrinter.h:48-79 | any printer's keyword followed by any address text reads back as that printer's width and exactly that address text, so the keyword depends only on the declared width and tells it |
| SizeDirective.SameKeywordIffSameWidth | lib/Target/X86/X86IntelAsmPrinter.h:48-79 | two printers write the same keyword if and only if they have the same declared width: the integer and floating-point printers of 32, 64 and 128 bits agree, and the keyword map is injective over the five widths |

## Left out

- `printInstruction` (line 34) is generated from the instruction-set description; its body is not part of this model.
- `printOp`, `printMemReference`, `printSSECC`, `printPICLabel`, `printAsmMRegister`, `PrintAsmOperand`, `PrintAsmMemoryOperand` and `printMachineInstruction` (lines 81-90) are declared without bodies; `printOp` and `printMemReference` are kept as opaque text functions because the modelled methods call them, the others are not modelled. The address format (base, index, scale, displacement, segment), modifier letters and condition-code names live in those bodies and are not modelled.
- PrintOp: its text is a function of the operand and the modifier only; any dependence on other printer state (label counters, the current function) is not modelled.
- PrintMemReference: its text is a function of the instruction and the operand index only, for the same reason; its own preconditions on the operands are not known and not stated.
- `runOnMachineFunction`, `doInitialization` and `getPassName` (lines 26-28, 91-92) are pass plumbing with no printing logic of their own here.
- `EmitZeros` and `EmitString` (lines 94-95) write raw data through LLVM constants; their bodies are not part of this model.
- `MachineInstr`, `MachineOperand`, `MRegisterInfo` and the register descriptor table are LLVM library types: they are modelled only as a small operand datatype, an operand sequence and two function-valued constants.
- Assertion failures are preconditions: a non-physical machine register or an out-of-range operand index is a caller defect in the source (an `assert`), not an error the printer reports.
