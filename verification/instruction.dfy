/** The instruction records of instruction.rs: an `Instruction` with its ordered
    `InstructionForm`s, each form with its ordered `Operand`s, and the two-variant
    `Arch`. All of them are plain values; the `Default` derives become constants. */
module Instructions {
  import opened Wrappers
  import opened OperandTypes

  /** The processor architecture an instruction belongs to. */
  datatype Arch = X86 | X86_64

  /** `Arch::default()`, the variant marked `#[default]`. */
  const DefaultArch: Arch := X86_64

  /** The variant's spelling (`AsRefStr`), used in the instruction header. */
  function ArchToStr(a: Arch): string {
    match a
    case X86 => "x86"
    case X86_64 => "x86_64"
  }

  /** `Arch::from_str` (`EnumString`): exact, case-sensitive. */
  function ParseArch(s: string): Option<Arch> {
    match s
    case "x86" => Some(X86)
    case "x86_64" => Some(X86_64)
    case _ => None
  }

  /** The two spellings of `Arch` are each other's inverse, the default is the
      64-bit variant, and nothing but the exact spellings is accepted. */
  lemma ArchSpelling(a: Arch, s: string)
    ensures ParseArch(s) == Some(a) <==> ArchToStr(a) == s
    ensures ArchToStr(DefaultArch) == "x86_64"
    ensures ParseArch("X86") == None && ParseArch("x86-64") == None
  {
  }

  /** One operand of an instruction form. `input` and `output` are three-valued:
      absent is different from `false`. */
  datatype Operand = Operand(opType: OperandType, input: Option<bool>, output: Option<bool>)

  /** One syntactic variant of an instruction, with its assembler spellings. The
      `encoding` field is kept for fidelity; nothing fills it in. */
  datatype InstructionForm = InstructionForm(
    gasName: Option<string>,
    goName: Option<string>,
    encoding: string,
    operands: seq<Operand>)

  /** `InstructionForm::default()`. */
  const DefaultForm: InstructionForm := InstructionForm(None, None, "", [])

  /** An instruction and its forms, in document order. */
  datatype Instruction = Instruction(
    name: string,
    summary: string,
    arch: Option<Arch>,
    forms: seq<InstructionForm>)

  /** `Instruction::default()`: no name, no summary, no architecture, no forms. */
  const DefaultInstruction: Instruction := Instruction("", "", None, [])
}
