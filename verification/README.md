# assembly-lsp, chapter 2: the instruction index and its rendering

The chapter-2 language server answers hover requests over x86 assembly. When it
starts, it reads an XML description of the instruction set into an index from
lower-case mnemonics to `Instruction` records. On a hover it renders the matching
record as Markdown. This project models that core in Dafny and proves properties
of the model:

- `populate_instructions` (populate.rs). The XML tokenizer is replaced by a
  sequence of events (`Loader.Event`). The loop becomes a fold over that sequence.
  The fold keeps an index and two scratch slots: the instruction under construction
  and the form under construction. It stops at the first `Eof` or at the first
  operand it cannot read.
- The records of instruction.rs: `Instruction`, `InstructionForm`, `Operand`,
  `Arch` and the 84-variant `OperandType`.
  - The `AsRefStr` and `EnumString` derives become `OperandTypes.ToStr` and
    `OperandTypes.Parse`, and are proved to be inverse to each other.
  - Both `Display` implementations become `Display.RenderForm` and
    `Display.RenderInstruction`.
- A reference reading of the loop (`Documents`). A well-nested document is built
  element by element. The loop over that document's event stream is proved to
  compute the same index (`Documents.PopulateDocument`).

The files are:

- `wrappers.dfy`: `Option` and `Result`.
- `text.dfy`: ASCII lower-casing, joining and padding.
- `operand_types.dfy`: `OperandType` and its two derives.
- `instruction.dfy`: the records and `Arch`.
- `display.dfy`: the two renderings.
- `populate.dfy`: the loop.
- `document.dfy`: the reference reading and its equivalence with the loop.

Some behaviour of the code is worth stating up front, because the model keeps it:

- populate.rs never requires the `name` attribute of `<Instruction>`. An
  instruction without one is filed under the empty name.
- A missing operand `type` is not an error. The operand keeps the placeholder type
  `k` it starts with (populate.rs:79).
- populate.rs never assigns `arch` (populate.rs:23, populate.rs:34). Every parsed
  instruction has `arch == None`, although `Arch`'s `#[default]` is `x86_64`.
- A repeated attribute makes quick_xml's attribute iterator return an error, which
  `unwrap` turns into a panic. The model does not stop there. Instead, the last
  occurrence of a key wins, as the assignments in the attribute loop would.

## Model

| member | source | states |
|---|---|---|
| Text.Lower | code/chapter_2/assembly-lsp/src/populate.rs:41 | lower-casing keeps the length, shifts each ASCII upper-case letter to its lower-case letter, leaves every other character alone, and leaves no upper-case letter |
| Text.LowerFixesLower | code/chapter_2/assembly-lsp/src/populate.rs:41 | a string is unchanged by lower-casing exactly when it has no upper-case letter |
| Text.LowerIdempotent | code/chapter_2/assembly-lsp/src/populate.rs:62 | lower-casing a name twice gives the same name as lower-casing it once |
| Text.Join | code/chapter_2/assembly-lsp/src/instruction.rs:31 | `join` of no parts is empty; otherwise it starts with the first part and its length is the parts' lengths plus one separator between neighbours |
| Text.PadRight | code/chapter_2/assembly-lsp/src/instruction.rs:65 | `{:<w}` keeps the text as a prefix and fills with spaces up to width w, never truncating a longer text |
| OperandTypes.ParseToStr | code/chapter_2/assembly-lsp/src/instruction.rs:99-227 | `from_str` of a variant's serialized spelling gives back that variant |
| OperandTypes.ParseInjective | code/chapter_2/assembly-lsp/src/instruction.rs:99-227 | no two different strings parse to the same variant |
| OperandTypes.ParseSound | code/chapter_2/assembly-lsp/src/instruction.rs:99-227 | whatever `from_str` accepts is exactly the `as_ref` spelling of the variant it returns |
| OperandTypes.ParseExact | code/chapter_2/assembly-lsp/src/instruction.rs:99-227 | `from_str(s)` yields `t` if and only if `s` is `t`'s spelling: the two derives are inverse |
| OperandTypes.ToStrInjective | code/chapter_2/assembly-lsp/src/instruction.rs:99-227 | two variants share a spelling only when they are the same variant |
| OperandTypes.ParseIsLiteral | code/chapter_2/assembly-lsp/src/instruction.rs:126-223 | brace and slash spellings are matched literally; a change of case, a missing brace or the empty string is rejected |
| Instructions.ArchSpelling | code/chapter_2/assembly-lsp/src/instruction.rs:91-97 | `Arch` parses a string to a variant if and only if that is the variant's spelling; the default is `x86_64`; matching is case-sensitive |
| Display.OperandLine | code/chapter_2/assembly-lsp/src/instruction.rs:65-73 | an operand line is `  + `, the bracketed type tag left-aligned in eight columns, then the input fragment when present, then the output fragment when present; it starts with `  + ` and the tag, and its length is the padded tag plus 15 for each flag present |
| Display.OperandLinePadding | code/chapter_2/assembly-lsp/src/instruction.rs:65 | the columns between the end of the type tag and the start of the flags are all spaces |
| Display.OperandLineInput | code/chapter_2/assembly-lsp/src/instruction.rs:66-68 | right after the tag's field comes ` input = true  ` or ` input = false `, matching the input flag; without an input flag the output fragment starts there instead |
| Display.OperandLineOutput | code/chapter_2/assembly-lsp/src/instruction.rs:69-71 | with an output flag the line ends with ` output = true ` or ` output = false`, matching the flag |
| Display.FormHeader | code/chapter_2/assembly-lsp/src/instruction.rs:47-58 | the form header is empty exactly when the form has neither a GAS nor a Go name |
| Display.FormHeaderJoinsNames | code/chapter_2/assembly-lsp/src/instruction.rs:47-58 | cutting the trailing ` \| ` gives `- ` followed by the present names, GAS first, joined by ` \| `, then an empty line |
| Display.OperandLines | code/chapter_2/assembly-lsp/src/instruction.rs:61-76 | one line per operand, in operand order, each that operand's line |
| Display.RenderForm | code/chapter_2/assembly-lsp/src/instruction.rs:45-81 | a rendered form starts with its header, is longer than the header, and ends with a newline |
| Display.RenderFormLayout | code/chapter_2/assembly-lsp/src/instruction.rs:61-77 | a form renders as its header, then each operand line followed by a newline; a form without operands renders as its header and one newline |
| Display.RenderForms | code/chapter_2/assembly-lsp/src/instruction.rs:25-26 | the forms are rendered one by one, in form order |
| Display.InstructionText | code/chapter_2/assembly-lsp/src/instruction.rs:22-31 | joining header, summary, `"\n"`, `## Forms`, `"\n"` and the forms by newlines gives the header, the summary, two empty lines around `## Forms`, then each form preceded by a newline |
| Display.Header | code/chapter_2/assembly-lsp/src/instruction.rs:15-20 | the header starts with the name; it is exactly the name when there is no architecture, and otherwise the name followed by ` [arch]` |
| Display.RenderInstructionHeader | code/chapter_2/assembly-lsp/src/instruction.rs:15-20 | the rendering starts with the name, followed by a newline when there is no architecture and by ` [arch]` when there is one |
| Display.RenderInstructionAppendForm | code/chapter_2/assembly-lsp/src/instruction.rs:22-31 | appending a form to an instruction appends a newline and that form's rendering to the instruction's rendering |
| Display.RenderFormsAppend | code/chapter_2/assembly-lsp/src/instruction.rs:25-29 | rendering a list of forms with one more form at the end appends that form's rendering |
| Display.InstructionTextAppend | code/chapter_2/assembly-lsp/src/instruction.rs:22-31 | one more rendered form at the end adds a newline and that form to the text |
| Display.WrittenOperandLineExample | code/chapter_2/assembly-lsp/src/instruction.rs:65-71 | a written `r32` operand renders as `  + [r32]    output = true ` |
| Display.ReadOperandLineExample | code/chapter_2/assembly-lsp/src/instruction.rs:65-68 | a read `r32` operand renders as `  + [r32]    input = true  `, the input fragment carrying a trailing space |
| Display.RenderFormExample | code/chapter_2/assembly-lsp/src/instruction.rs:45-81 | a form with GAS name `add` and two `r32` operands renders as the header line, an empty line and the two operand lines, each ended by a newline |
| Loader.Lookup | code/chapter_2/assembly-lsp/src/populate.rs:37-50 | an attribute lookup finds a value exactly when some attribute has that key, and the value is that of the last such attribute |
| Loader.StartInstruction | code/chapter_2/assembly-lsp/src/populate.rs:34-50 | a new instruction takes the lower-cased last `name` (or `""`) and the last `summary` (or `""`), with no architecture and no forms |
| Loader.StartForm | code/chapter_2/assembly-lsp/src/populate.rs:54-70 | a new form takes the lower-cased last `gas-name` and `go-name` when present, an empty encoding and no operands |
| Loader.OperandAttr | code/chapter_2/assembly-lsp/src/populate.rs:86-107 | one operand attribute fails exactly when it is a `type` that is no spelling or an `input`/`output` other than `true`/`false`, and with that error |
| Loader.ReadOperandFails | code/chapter_2/assembly-lsp/src/populate.rs:83-109 | reading an operand succeeds if and only if none of its attributes is bad; otherwise it fails with the first bad attribute's error |
| Loader.ReadOperandType | code/chapter_2/assembly-lsp/src/populate.rs:79-96 | a read operand has the type spelled by its last `type` attribute, or `k` when there is none |
| Loader.ReadOperandFlags | code/chapter_2/assembly-lsp/src/populate.rs:80-106 | a read operand's `input` and `output` are those of the last attribute of that name, absent when there is none |
| Loader.ReadOperandAttrs | code/chapter_2/assembly-lsp/src/populate.rs:79-115 | the attribute loop with its early returns computes the same operand or error as the reference fold |
| Loader.ReadOperandStopsAtError | code/chapter_2/assembly-lsp/src/populate.rs:90-105 | once a prefix of the attributes fails, later attributes do not change the error |
| Loader.Step | code/chapter_2/assembly-lsp/src/populate.rs:28-137 | one event fails exactly when it is a bad `<Operand/>`; ignored events change nothing; only `</Instruction>` touches the index, replacing the entry under the current name; each slot changes only at its own events |
| Loader.RunCons | code/chapter_2/assembly-lsp/src/populate.rs:27-138 | the loop over an event and more events is one step followed by the loop over the rest, or the step's error |
| Loader.PopulateInstructions | code/chapter_2/assembly-lsp/src/populate.rs:16-141 | the imperative loop over the events returns the same index or error as the fold |
| Loader.Live | code/chapter_2/assembly-lsp/src/populate.rs:134 | the events the loop looks at are the longest `Eof`-free prefix, followed by an `Eof` if there is one |
| Loader.RunStopsAtEof | code/chapter_2/assembly-lsp/src/populate.rs:134 | the loop's result depends only on the events before the first `Eof` |
| Loader.PopulateIgnoresAfterEof | code/chapter_2/assembly-lsp/src/populate.rs:134-140 | whatever follows the first `Eof` does not change the index or the error |
| Loader.RunFails | code/chapter_2/assembly-lsp/src/populate.rs:86-106 | the loop fails if and only if some event before the first `Eof` is a bad `<Operand/>` |
| Loader.RunFirstError | code/chapter_2/assembly-lsp/src/populate.rs:90-105 | a failing loop reports the error of the first bad operand before the first `Eof` |
| Loader.PopulateFails | code/chapter_2/assembly-lsp/src/populate.rs:83-109 | `populate_instructions` fails if and only if a live operand is bad, and then with the first bad operand's error; there is no partial index |
| Loader.RunAppend | code/chapter_2/assembly-lsp/src/populate.rs:27-138 | the loop over an `Eof`-free prefix and then more events is the loop over the prefix continued on the rest |
| Loader.PopulateSkipsInert | code/chapter_2/assembly-lsp/src/populate.rs:72-73 | removing an event the loop ignores (`<Encoding>`, unknown tags, closing tags other than the two handled, text) changes nothing |
| Loader.RunConsistent | code/chapter_2/assembly-lsp/src/populate.rs:27-138 | the loop keeps its invariant: both slots hold lower-case names and no architecture, and every index entry is filed under its own name |
| Loader.PopulateIndexShape | code/chapter_2/assembly-lsp/src/populate.rs:123-126 | every key of the index is lower case and is the name of the instruction filed under it, which has no architecture and only lower-case form names |
| Documents.BuildOperands | code/chapter_2/assembly-lsp/src/populate.rs:111-115 | a form's operands are read one per `<Operand/>`, in order |
| Documents.BuildForms | code/chapter_2/assembly-lsp/src/populate.rs:128-129 | an instruction's forms are built one per `<InstructionForm>`, in order |
| Documents.RunOperands | code/chapter_2/assembly-lsp/src/populate.rs:111-115 | the operand events of a form append its operands to the form slot, or stop with the first bad operand's error |
| Documents.RunForm | code/chapter_2/assembly-lsp/src/populate.rs:128-129 | a form element appends the form it builds to the instruction slot and leaves it in the form slot |
| Documents.RunForms | code/chapter_2/assembly-lsp/src/populate.rs:128-129 | a run of form elements appends the built forms in order, or stops with the first bad form's error |
| Documents.RunInstruction | code/chapter_2/assembly-lsp/src/populate.rs:123-126 | an instruction element files the instruction it builds under its name, replacing any earlier entry |
| Documents.RunDocument | code/chapter_2/assembly-lsp/src/populate.rs:16-141 | the loop over a document's events, from any index, gives the index built element by element |
| Documents.PopulateDocument | code/chapter_2/assembly-lsp/src/populate.rs:16-141 | on a well-nested document, `populate_instructions` returns exactly the element-by-element index, or the same error |
| Documents.BuildIndexFromAppend | code/chapter_2/assembly-lsp/src/populate.rs:125-126 | one more instruction at the end of a document inserts it into the index built so far |
| Documents.AppendInstruction | code/chapter_2/assembly-lsp/src/populate.rs:123-126 | an instruction added at the end of a document becomes the entry under its name, with no forms merged from an earlier one, and every other entry is unchanged |
| Documents.BuildIndexFromConcat | code/chapter_2/assembly-lsp/src/populate.rs:27-138 | filing a document in two parts is filing the first part and then the second on top of its index, or the first part's error |
| Documents.BuildIndexFromKeeps | code/chapter_2/assembly-lsp/src/populate.rs:123-126 | an entry survives instructions that all have other names |
| Documents.LastInstructionWins | code/chapter_2/assembly-lsp/src/populate.rs:123-126 | wherever it stands in the document, an instruction with no later namesake is the entry under its name, exactly, with no forms merged from earlier ones |
| Documents.BuildIndexFromAllOk | code/chapter_2/assembly-lsp/src/populate.rs:86-106 | an index is built only when every instruction of the document builds |
| Documents.BuildIndexFromKeys | code/chapter_2/assembly-lsp/src/populate.rs:123-126 | a name is a key of the index if and only if it was a key before or is the name of one of the document's instructions |

## Left out

- The XML tokenizer (quick_xml's `Reader`, `trim_text`, `read_event`) is not modelled. Its output is the event sequence the loop consumes. An event sequence without `Eof` is treated as if it ended with one.
- The panics are not modelled, because they end the process rather than produce a value:
  - the `unwrap` of an attribute and of its key;
  - the `unwrap` on a non-UTF-8 `input`/`output` value;
  - `from_utf8_unchecked` on malformed bytes;
  - the reader-error panic at populate.rs:135.
- The `?` on `from_utf8` of a `type` value is not modelled. Attribute values are already strings.
- Text.Lower: lower-cases ASCII letters only. Rust's `to_lowercase` applies full Unicode case mapping, which has no counterpart in Dafny strings.
- The `Encoding` element is ignored by the source (a TODO at populate.rs:72), so `encoding` stays empty. The model does the same.
- Debug logging is left out, and so is `HashMap`'s iteration order: the index is a Dafny `map`.
- main.rs is not part of this model: the language-server loop, the hover lookup and the message transport.
- Error message texts are left out. The two `anyhow!` errors become the constructors `UnknownOperandType(variant)` and `UnknownFlagValue`.
- Display.RenderInstruction: carries no contract of its own. Its properties are stated by `Display.RenderInstructionHeader`, `Display.InstructionText` and `Display.RenderInstructionAppendForm`.
- Loader.ReadOperand: carries no contract of its own. Its properties are stated by `Loader.ReadOperandFails`, `Loader.ReadOperandType` and `Loader.ReadOperandFlags`.
- OperandTypes.ToStr: carries no contract of its own. Its properties are stated by `OperandTypes.ParseToStr`, `OperandTypes.ParseExact` and `OperandTypes.ToStrInjective`.
- OperandTypes.Parse: carries no contract of its own. Its properties are stated by `OperandTypes.ParseExact`, `OperandTypes.ParseSound`, `OperandTypes.ParseInjective` and `OperandTypes.ParseIsLiteral`.
- Loader.Run: carries no contract of its own. Its properties are stated by `Loader.RunCons`, `Loader.RunStopsAtEof`, `Loader.RunFails`, `Loader.RunFirstError`, `Loader.RunAppend`, `Loader.RunConsistent` and `Documents.RunDocument`.
- Loader.Populate: carries no contract of its own. Its properties are stated by `Loader.PopulateInstructions`, `Loader.PopulateFails`, `Loader.PopulateIgnoresAfterEof`, `Loader.PopulateSkipsInert`, `Loader.PopulateIndexShape` and `Documents.PopulateDocument`.
