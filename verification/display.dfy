/** The two `Display` implementations of instruction.rs: the Markdown-like hover
    text of an `Instruction` and of each of its `InstructionForm`s. Both are
    deterministic and keep the order of forms and operands. */
module Display {
  import opened Wrappers
  import opened Text
  import opened OperandTypes
  import opened Instructions

  /** Rust's `Display` for `bool`. */
  function BoolStr(b: bool): string {
    if b then "true" else "false"
  }

  /** The bracketed tag an operand line starts with, such as `[xmm{k}]`. */
  function TypeTag(t: OperandType): string {
    "[" + ToStr(t) + "]"
  }

  /** The ` input = ...` fragment, present only when the flag is. */
  function InputFlag(input: Option<bool>): (r: string)
    ensures input.None? ==> r == ""
    ensures input.Some? ==> r == " input = " + PadRight(BoolStr(input.value), 5) + " " && |r| == 15
  {
    match input
    case Some(b) => " input = " + PadRight(BoolStr(b), 5) + " "
    case None => ""
  }

  /** The ` output = ...` fragment, present only when the flag is. */
  function OutputFlag(output: Option<bool>): (r: string)
    ensures output.None? ==> r == ""
    ensures output.Some? ==> r == " output = " + PadRight(BoolStr(output.value), 5) && |r| == 15
  {
    match output
    case Some(b) => " output = " + PadRight(BoolStr(b), 5)
    case None => ""
  }

  /** One operand line: `  + `, the type tag left-aligned in a field of eight
      columns, then the input and the output flag, each only when present and each
      value left-aligned in five columns. */
  function OperandLine(op: Operand): (r: string)
    ensures |r| == 4 + Max(|TypeTag(op.opType)|, 8)
                    + (if op.input.Some? then 15 else 0)
                    + (if op.output.Some? then 15 else 0)
    ensures r[..4] == "  + "
    ensures r[4..4 + |TypeTag(op.opType)|] == TypeTag(op.opType)
    ensures r == "  + " + PadRight(TypeTag(op.opType), 8) + InputFlag(op.input) + OutputFlag(op.output)
  {
    var tag := PadRight(TypeTag(op.opType), 8);
    assert ("  + " + tag)[4..4 + |TypeTag(op.opType)|] == tag[..|TypeTag(op.opType)|];
    "  + " + tag + InputFlag(op.input) + OutputFlag(op.output)
  }

  /** The column where an operand line's flags start: after `  + ` and the tag's
      field of at least eight columns. */
  function FlagColumn(op: Operand): nat {
    4 + Max(|TypeTag(op.opType)|, 8)
  }

  /** Between the tag and the flags an operand line holds only spaces. */
  lemma OperandLinePadding(op: Operand)
    ensures FlagColumn(op) <= |OperandLine(op)|
    ensures forall i :: 4 + |TypeTag(op.opType)| <= i < FlagColumn(op) ==> OperandLine(op)[i] == ' '
  {
    var flags := InputFlag(op.input) + OutputFlag(op.output);
    assert OperandLine(op) == "  + " + PadRight(TypeTag(op.opType), 8) + flags;
    FieldPadding(TypeTag(op.opType), flags);
  }

  /** The padding of a left-aligned field of eight columns after `  + ` is spaces,
      whatever follows it. */
  lemma FieldPadding(tag: string, rest: string)
    ensures forall i :: 4 + |tag| <= i < 4 + Max(|tag|, 8) ==> ("  + " + PadRight(tag, 8) + rest)[i] == ' '
  {
    var line := "  + " + PadRight(tag, 8) + rest;
    forall i | 4 + |tag| <= i < 4 + Max(|tag|, 8)
      ensures line[i] == ' '
    {
      assert line[i] == PadRight(tag, 8)[i - 4];
    }
  }

  /** The input fragment comes first after the tag's field and prints the input
      flag's value; without an input flag the output fragment starts there. */
  lemma OperandLineInput(op: Operand)
    ensures op.input.Some? ==> FlagColumn(op) + 15 <= |OperandLine(op)|
    ensures op.input == Some(true) ==> OperandLine(op)[FlagColumn(op)..FlagColumn(op) + 15] == " input = true  "
    ensures op.input == Some(false) ==> OperandLine(op)[FlagColumn(op)..FlagColumn(op) + 15] == " input = false "
    ensures op.input.None? ==> OperandLine(op)[FlagColumn(op)..] == OutputFlag(op.output)
  {
    var r := OperandLine(op);
    var w := FlagColumn(op);
    assert r == ("  + " + PadRight(TypeTag(op.opType), 8)) + InputFlag(op.input) + OutputFlag(op.output);
    assert r[w..w + |InputFlag(op.input)|] == InputFlag(op.input);
    assert PadRight("true", 5) == "true ";
    assert PadRight("false", 5) == "false";
  }

  /** The output fragment ends the line and prints the output flag's value. */
  lemma OperandLineOutput(op: Operand)
    ensures op.output.Some? ==> |OperandLine(op)| >= 15
    ensures op.output == Some(true) ==> OperandLine(op)[|OperandLine(op)| - 15..] == " output = true "
    ensures op.output == Some(false) ==> OperandLine(op)[|OperandLine(op)| - 15..] == " output = false"
  {
    var r := OperandLine(op);
    var head := "  + " + PadRight(TypeTag(op.opType), 8) + InputFlag(op.input);
    assert r == head + OutputFlag(op.output);
    assert r[|head|..] == OutputFlag(op.output);
    assert PadRight("true", 5) == "true ";
    assert PadRight("false", 5) == "false";
  }

  function Max(a: int, b: int): int {
    if a >= b then a else b
  }

  /** The `*GAS*: ...` and `*GO*: ...` parts of a form header, for the names that
      are present, GAS first. */
  function NameParts(f: InstructionForm): seq<string> {
    (if f.gasName.Some? then ["*GAS*: " + f.gasName.value] else [])
      + (if f.goName.Some? then ["*GO*: " + f.goName.value] else [])
  }

  /** The header line of a form. Each present name is written followed by ` | `, and
      the last three characters are cut off again; the cut is in bounds because a
      non-empty accumulator always ends with ` | `. */
  function FormHeader(f: InstructionForm): (r: string)
    ensures r == "" <==> f.gasName.None? && f.goName.None?
  {
    var s := (match f.gasName case Some(g) => "*GAS*: " + g + " | " case None => "")
           + (match f.goName case Some(o) => "*GO*: " + o + " | " case None => "");
    if s == "" then "" else "- " + s[..|s| - 3] + "\n\n"
  }

  /** The lines of a form's operands, in operand order. */
  function OperandLines(ops: seq<Operand>): (r: seq<string>)
    ensures |r| == |ops|
    ensures forall i :: 0 <= i < |ops| ==> r[i] == OperandLine(ops[i])
  {
    if |ops| == 0 then [] else [OperandLine(ops[0])] + OperandLines(ops[1..])
  }

  /** `format!("{}", form)`: the header, then the operand lines joined by newlines,
      then one final newline. */
  function RenderForm(f: InstructionForm): (r: string)
    ensures |r| > |FormHeader(f)| && r[|r| - 1] == '\n'
    ensures r[..|FormHeader(f)|] == FormHeader(f)
  {
    var body := Join("\n", OperandLines(f.operands)) + "\n";
    assert (FormHeader(f) + body)[..|FormHeader(f)|] == FormHeader(f);
    FormHeader(f) + body
  }

  /** The first line of an instruction's text: its name, followed by the bracketed
      architecture when there is one. */
  function Header(i: Instruction): (r: string)
    ensures |i.name| <= |r| && r[..|i.name|] == i.name
    ensures i.arch.None? <==> |r| == |i.name|
    ensures i.arch.Some? ==> r[|i.name|..] == " [" + ArchToStr(i.arch.value) + "]"
  {
    match i.arch
    case Some(a) => i.name + " [" + ArchToStr(a) + "]"
    case None => i.name
  }

  /** The rendered forms of an instruction, in form order. */
  function RenderForms(forms: seq<InstructionForm>): (r: seq<string>)
    ensures |r| == |forms|
    ensures forall k :: 0 <= k < |forms| ==> r[k] == RenderForm(forms[k])
  {
    if |forms| == 0 then [] else [RenderForm(forms[0])] + RenderForms(forms[1..])
  }

  /** `format!("{}", instruction)`: header, summary, an empty line, the `## Forms`
      heading and another empty line, then one rendered form per form, all joined
      by newlines. */
  function RenderInstruction(i: Instruction): string {
    InstructionText(Header(i), i.summary, RenderForms(i.forms))
  }

  /** The instruction text built from its already rendered pieces. */
  function InstructionText(header: string, summary: string, forms: seq<string>): (r: string)
    ensures r == header + "\n" + summary + "\n" + "\n" + "\n" + "## Forms" + "\n" + "\n" + PrefixEach("\n", forms)
  {
    var fixed := [header, summary, "\n", "## Forms", "\n"];
    assert Join("\n", fixed[3..]) == "## Forms" + "\n" + Join("\n", fixed[4..]);
    assert Join("\n", fixed[2..]) == "\n" + "\n" + Join("\n", fixed[3..]);
    assert Join("\n", fixed[1..]) == summary + "\n" + Join("\n", fixed[2..]);
    JoinThenPrefixEach("\n", fixed, forms);
    Join("\n", fixed + forms)
  }

  /** The form header lists the present names, GAS first, separated by ` | `,
      between `- ` and an empty line: trimming the trailing separator gives the same
      text as joining the names. */
  lemma FormHeaderJoinsNames(f: InstructionForm)
    ensures FormHeader(f) == if NameParts(f) == [] then "" else "- " + Join(" | ", NameParts(f)) + "\n\n"
  {
    match (f.gasName, f.goName)
    case (Some(g), Some(o)) =>
      var s := "*GAS*: " + g + " | " + "*GO*: " + o + " | ";
      assert s[..|s| - 3] == "*GAS*: " + g + " | " + "*GO*: " + o;
      assert NameParts(f) == ["*GAS*: " + g, "*GO*: " + o];
    case (Some(g), None) =>
      var s := "*GAS*: " + g + " | " + "";
      assert s[..|s| - 3] == "*GAS*: " + g;
      assert NameParts(f) == ["*GAS*: " + g];
    case (None, Some(o)) =>
      var s := "" + ("*GO*: " + o + " | ");
      assert s[..|s| - 3] == "*GO*: " + o;
      assert NameParts(f) == ["*GO*: " + o];
    case (None, None) =>
  }

  /** An instruction's text starts with its name; when it has an architecture, the
      name is followed by that architecture in brackets, and otherwise by the line
      break before the summary. */
  lemma RenderInstructionHeader(i: Instruction)
    ensures |RenderInstruction(i)| > |i.name|
    ensures RenderInstruction(i)[..|i.name|] == i.name
    ensures i.arch.None? ==> RenderInstruction(i)[|i.name|] == '\n'
    ensures i.arch.Some? ==> var tail := " [" + ArchToStr(i.arch.value) + "]";
              |RenderInstruction(i)| > |i.name| + |tail| && RenderInstruction(i)[|i.name|..|i.name| + |tail|] == tail
  {
  }

  /** Adding a form at the end of an instruction adds its rendering at the end of
      the instruction's text and changes nothing before it. */
  lemma RenderInstructionAppendForm(i: Instruction, f: InstructionForm)
    ensures RenderInstruction(i.(forms := i.forms + [f])) == RenderInstruction(i) + "\n" + RenderForm(f)
  {
    RenderFormsAppend(i.forms, f);
    InstructionTextAppend(Header(i), i.summary, RenderForms(i.forms), RenderForm(f));
  }

  lemma {:induction false} RenderFormsAppend(forms: seq<InstructionForm>, f: InstructionForm)
    ensures RenderForms(forms + [f]) == RenderForms(forms) + [RenderForm(f)]
  {
    if |forms| == 0 {
      assert forms + [f] == [f];
    } else {
      assert (forms + [f])[1..] == forms[1..] + [f];
      RenderFormsAppend(forms[1..], f);
    }
  }

  /** Appending a rendered form appends it, after a line break, to the text. */
  lemma InstructionTextAppend(header: string, summary: string, forms: seq<string>, form: string)
    ensures InstructionText(header, summary, forms + [form]) == InstructionText(header, summary, forms) + "\n" + form
  {
    PrefixEachAppend("\n", forms, [form]);
  }

  /** A form's text is its header followed by one newline-terminated line per
      operand, in operand order; a form without operands still ends in a newline. */
  lemma RenderFormLayout(f: InstructionForm)
    ensures RenderForm(f) == FormHeader(f) + (if |f.operands| == 0 then "\n" else TerminateEach("\n", OperandLines(f.operands)))
  {
    if |f.operands| > 0 {
      JoinAsTerminated("\n", OperandLines(f.operands));
    }
  }

  /** The padded pieces of the example operand lines below. */
  lemma ExamplePieces()
    ensures PadRight(TypeTag(R32), 8) == "[r32]   "
    ensures InputFlag(Some(true)) == " input = true  "
    ensures OutputFlag(Some(true)) == " output = true "
  {
    assert TypeTag(R32) == "[r32]";
    assert PadRight("true", 5) == "true ";
  }

  /** The line of a written 32-bit register: the tag is padded to eight columns and
      the flag value to five. */
  lemma WrittenOperandLineExample()
    ensures OperandLine(Operand(R32, None, Some(true))) == "  + [r32]    output = true "
  {
    ExamplePieces();
    assert OperandLine(Operand(R32, None, Some(true))) == "  + " + "[r32]   " + "" + " output = true ";
  }

  /** The line of a read 32-bit register; the input fragment carries one more
      trailing space. */
  lemma ReadOperandLineExample()
    ensures OperandLine(Operand(R32, Some(true), None)) == "  + [r32]    input = true  "
  {
    ExamplePieces();
    assert OperandLine(Operand(R32, Some(true), None)) == "  + " + "[r32]   " + " input = true  " + "";
  }

  /** A form with only a GAS name and two 32-bit register operands, the first
      written and the second read, renders as a header line and two aligned
      operand lines. */
  lemma RenderFormExample()
    ensures RenderForm(InstructionForm(Some("add"), None, "", [Operand(R32, None, Some(true)), Operand(R32, Some(true), None)]))
         == "- *GAS*: add\n\n" + "  + [r32]    output = true " + "\n" + "  + [r32]    input = true  " + "\n"
  {
    var w := Operand(R32, None, Some(true));
    var rd := Operand(R32, Some(true), None);
    var f := InstructionForm(Some("add"), None, "", [w, rd]);
    WrittenOperandLineExample();
    ReadOperandLineExample();
    TwoOperandLayout(f);
    var s := "*GAS*: " + "add" + " | " + "";
    assert s[..|s| - 3] == "*GAS*: add";
    assert FormHeader(f) == "- *GAS*: add\n\n";
  }

  /** A form with two operands renders as its header and the two operand lines,
      each followed by a newline. */
  lemma TwoOperandLayout(f: InstructionForm)
    requires |f.operands| == 2
    ensures RenderForm(f) == FormHeader(f) + OperandLines(f.operands)[0] + "\n" + OperandLines(f.operands)[1] + "\n"
  {
    var lines := OperandLines(f.operands);
    assert lines == [lines[0], lines[1]];
    JoinTwo("\n", lines[0], lines[1]);
  }

}
