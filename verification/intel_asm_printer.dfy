/**
 * The Intel-syntax assembly printer for X86 (X86IntelAsmPrinter): the operand
 * printer used by the generated instruction printer, and the memory-operand
 * printers that put a size keyword in front of an address.
 */
module IntelAsmPrinter {
  import opened Wrappers
  import opened MachineCode
  import opened SizeDirective

  class X86IntelAsmPrinter {
    /** The output stream O: everything this printer has written. */
    var out: string

    /** The register descriptor table of the target: the name of each register. */
    const registerName: nat -> string
    /** The register-number test MRegisterInfo::isPhysicalRegister. */
    const isPhysicalRegister: nat -> bool
    /** What printOp writes for an operand and a modifier (None is the null modifier). */
    const opText: (MachineOperand, Option<string>) -> string
    /** What printMemReference writes for the memory operand that starts at an operand index. */
    const memReferenceText: (MachineInstr, nat) -> string

    /** A printer over an empty stream, for a target whose collaborators are given. */
    constructor (registerName: nat -> string, isPhysicalRegister: nat -> bool,
                 opText: (MachineOperand, Option<string>) -> string,
                 memReferenceText: (MachineInstr, nat) -> string)
      ensures out == []
      ensures this.registerName == registerName && this.isPhysicalRegister == isPhysicalRegister
      ensures this.opText == opText && this.memReferenceText == memReferenceText
    {
      this.registerName := registerName;
      this.isPhysicalRegister := isPhysicalRegister;
      this.opText := opText;
      this.memReferenceText := memReferenceText;
      out := [];
    }

    /** printOp: appends its text for the operand and modifier. */
    method PrintOp(mo: MachineOperand, modifier: Option<string>)
      modifies this
      ensures out == old(out) + opText(mo, modifier)
    {
      out := out + opText(mo, modifier);
    }

    /** printMemReference: appends the address of the memory operand at opNo. */
    method PrintMemReference(mi: MachineInstr, opNo: nat)
      modifies this
      ensures out == old(out) + memReferenceText(mi, opNo)
    {
      out := out + memReferenceText(mi, opNo);
    }

    /**
     * printOperand: a machine register, which must be physical, is written by
     * its name from the register table and the modifier plays no part; every
     * other operand is written by printOp with the caller's modifier.
     */
    method PrintOperand(mi: MachineInstr, opNo: nat, modifier: Option<string>)
      requires opNo < |mi.operands|
      requires mi.operands[opNo].MachineRegister? ==> isPhysicalRegister(mi.operands[opNo].reg)
      modifies this
      ensures mi.operands[opNo].MachineRegister? ==>
                out == old(out) + registerName(mi.operands[opNo].reg)
      ensures !mi.operands[opNo].MachineRegister? ==>
                out == old(out) + opText(mi.operands[opNo], modifier)
    {
      var mo := mi.operands[opNo];
      if mo.MachineRegister? {
        out := out + registerName(mo.reg);
      } else {
        PrintOp(mo, modifier);
      }
    }

    /** printi8mem: "BYTE PTR " and then the address. */
    method PrintI8Mem(mi: MachineInstr, opNo: nat)
      modifies this
      ensures out == old(out) + SizeKeyword(I8) + memReferenceText(mi, opNo)
    {
      out := out + "BYTE PTR ";
      PrintMemReference(mi, opNo);
    }

    /** printi16mem: "WORD PTR " and then the address. */
    method PrintI16Mem(mi: MachineInstr, opNo: nat)
      modifies this
      ensures out == old(out) + SizeKeyword(I16) + memReferenceText(mi, opNo)
    {
      out := out + "WORD PTR ";
      PrintMemReference(mi, opNo);
    }

    /** printi32mem: "DWORD PTR " and then the address. */
    method PrintI32Mem(mi: MachineInstr, opNo: nat)
      modifies this
      ensures out == old(out) + SizeKeyword(I32) + memReferenceText(mi, opNo)
    {
      out := out + "DWORD PTR ";
      PrintMemReference(mi, opNo);
    }

    /** printi64mem: "QWORD PTR " and then the address. */
    method PrintI64Mem(mi: MachineInstr, opNo: nat)
      modifies this
      ensures out == old(out) + SizeKeyword(I64) + memReferenceText(mi, opNo)
    {
      out := out + "QWORD PTR ";
      PrintMemReference(mi, opNo);
    }

    /** printi128mem: "XMMWORD PTR " and then the address. */
    method PrintI128Mem(mi: MachineInstr, opNo: nat)
      modifies this
      ensures out == old(out) + SizeKeyword(I128) + memReferenceText(mi, opNo)
    {
      out := out + "XMMWORD PTR ";
      PrintMemReference(mi, opNo);
    }

    /** printf32mem: the 32-bit keyword, "DWORD PTR ", and then the address. */
    method PrintF32Mem(mi: MachineInstr, opNo: nat)
      modifies this
      ensures out == old(out) + SizeKeyword(F32) + memReferenceText(mi, opNo)
    {
      out := out + "DWORD PTR ";
      PrintMemReference(mi, opNo);
    }

    /** printf64mem: the 64-bit keyword, "QWORD PTR ", and then the address. */
    method PrintF64Mem(mi: MachineInstr, opNo: nat)
      modifies this
      ensures out == old(out) + SizeKeyword(F64) + memReferenceText(mi, opNo)
    {
      out := out + "QWORD PTR ";
      PrintMemReference(mi, opNo);
    }

    /** printf128mem: the 128-bit keyword, "XMMWORD PTR ", and then the address. */
    method PrintF128Mem(mi: MachineInstr, opNo: nat)
      modifies this
      ensures out == old(out) + SizeKeyword(F128) + memReferenceText(mi, opNo)
    {
      out := out + "XMMWORD PTR ";
      PrintMemReference(mi, opNo);
    }
  }
}
