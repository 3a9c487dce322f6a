/**
 * The parts of LLVM's machine-code representation that the Intel printer reads.
 * They belong to the code generator, not to the printer; only what the printer
 * looks at is kept: an instruction's operand list and each operand's kind.
 */
module MachineCode {

  /**
   * One operand of a machine instruction (MachineOperand). The printer itself
   * only distinguishes machine registers from everything else; the other kinds
   * are carried so that the text printOp produces for them may depend on them.
   */
  datatype MachineOperand =
    | MachineRegister(reg: nat)                   // the register kind printOperand writes by its table name
    | VirtualRegister(reg: nat)                   // another register kind, left to printOp
    | Immediate(value: int)                       // an integer constant
    | MachineBasicBlock(number: nat)              // a branch target
    | FrameIndex(frameIndex: int)                 // an abstract stack slot
    | ConstantPoolIndex(index: nat)               // an entry of the constant pool
    | JumpTableIndex(index: nat)                  // an entry of the jump table
    | ExternalSymbol(name: string)                // a symbol by name
    | GlobalAddress(name: string, offset: int)    // a global value plus an offset

  /** A machine instruction (MachineInstr): an opcode and its ordered operands. */
  datatype MachineInstr = MachineInstr(opcode: nat, operands: seq<MachineOperand>)
}
