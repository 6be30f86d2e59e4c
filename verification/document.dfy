/** A reference reading of `populate_instructions` on well-nested documents. A
    document is a list of `<Instruction>` elements, each holding
    `<InstructionForm>` elements, each holding self-closing `<Operand/>` elements.
    Built element by element, it gives the index directly; the loop over the
    document's event stream computes the same index. */
module Documents {
  import opened Wrappers
  import opened Instructions
  import opened Loader

  /** An `<InstructionForm>` element with its operands' attribute lists. */
  datatype FormElem = FormElem(attrs: seq<Attr>, operands: seq<seq<Attr>>)

  /** An `<Instruction>` element with its forms. */
  datatype InstrElem = InstrElem(attrs: seq<Attr>, forms: seq<FormElem>)

  // ---------------------------------------------------------------------------
  // The event stream of a document

  function OperandEvents(ops: seq<seq<Attr>>): seq<Event> {
    if |ops| == 0 then [] else [Empty("Operand", ops[0])] + OperandEvents(ops[1..])
  }

  function FormEvents(f: FormElem): seq<Event> {
    [Start("InstructionForm", f.attrs)] + OperandEvents(f.operands) + [End("InstructionForm")]
  }

  function FormsEvents(fs: seq<FormElem>): seq<Event> {
    if |fs| == 0 then [] else FormEvents(fs[0]) + FormsEvents(fs[1..])
  }

  function InstrEvents(i: InstrElem): seq<Event> {
    [Start("Instruction", i.attrs)] + FormsEvents(i.forms) + [End("Instruction")]
  }

  function InstrsEvents(d: seq<InstrElem>): seq<Event> {
    if |d| == 0 then [] else InstrEvents(d[0]) + InstrsEvents(d[1..])
  }

  /** The tokenizer's output for a document: its elements' events, then `Eof`. */
  function DocEvents(d: seq<InstrElem>): seq<Event> {
    InstrsEvents(d) + [Eof]
  }

  // ---------------------------------------------------------------------------
  // Building the index element by element

  /** The operands of a form in order, or the error of the first bad one. */
  function BuildOperands(ops: seq<seq<Attr>>): (r: Result<seq<Operand>, PopulateError>)
    ensures r.Ok? ==> |r.value| == |ops| && forall k :: 0 <= k < |ops| ==> ReadOperand(ops[k]) == Ok(r.value[k])
  {
    if |ops| == 0 then Ok([])
    else
      var op :- ReadOperand(ops[0]);
      var rest :- BuildOperands(ops[1..]);
      Ok([op] + rest)
  }

  /** A bad operand after a good first one makes the whole list fail with its
      error. */
  lemma BuildOperandsTailFails(ops: seq<seq<Attr>>)
    requires |ops| > 0 && ReadOperand(ops[0]).Ok? && BuildOperands(ops[1..]).Err?
    ensures BuildOperands(ops) == BuildOperands(ops[1..])
  {
  }

  /** A form: the attributes of its start tag, then its operands. */
  function BuildForm(f: FormElem): Result<InstructionForm, PopulateError> {
    var ops :- BuildOperands(f.operands);
    Ok(StartForm(f.attrs).(operands := ops))
  }

  function BuildForms(fs: seq<FormElem>): (r: Result<seq<InstructionForm>, PopulateError>)
    ensures r.Ok? ==> |r.value| == |fs| && forall k :: 0 <= k < |fs| ==> BuildForm(fs[k]) == Ok(r.value[k])
  {
    if |fs| == 0 then Ok([])
    else
      var g :- BuildForm(fs[0]);
      var rest :- BuildForms(fs[1..]);
      Ok([g] + rest)
  }

  /** An instruction: the attributes of its start tag, then its forms. */
  function BuildInstruction(i: InstrElem): Result<Instruction, PopulateError> {
    var forms :- BuildForms(i.forms);
    Ok(StartInstruction(i.attrs).(forms := forms))
  }

  /** Files each instruction of a document under its name, in document order, on
      top of an existing index. */
  function BuildIndexFrom(m: map<string, Instruction>, d: seq<InstrElem>): Result<map<string, Instruction>, PopulateError>
    decreases |d|
  {
    if |d| == 0 then Ok(m)
    else
      var x :- BuildInstruction(d[0]);
      BuildIndexFrom(m[x.name := x], d[1..])
  }

  function BuildIndex(d: seq<InstrElem>): Result<map<string, Instruction>, PopulateError> {
    BuildIndexFrom(map[], d)
  }

  /** The form slot after a run of forms: the last one, or the old slot when the
      run is empty. */
  function LastOr(slot: InstructionForm, forms: seq<InstructionForm>): InstructionForm {
    if |forms| == 0 then slot else forms[|forms| - 1]
  }

  // ---------------------------------------------------------------------------
  // The loop follows the element structure

  /** The operand events of a form append the operands to the form slot, or stop
      the loop with the error of the first bad operand. */
  lemma {:induction false} RunOperands(st: State, ops: seq<seq<Attr>>, rest: seq<Event>)
    ensures Run(st, OperandEvents(ops) + rest)
         == match BuildOperands(ops)
            case Err(e) => Err(e)
            case Ok(os) => Run(st.(form := st.form.(operands := st.form.operands + os)), rest)
  {
    if BuildOperands(ops).Ok? {
      RunOperandsOk(st, ops, rest);
    } else {
      RunOperandsFail(st, ops, rest);
    }
  }

  lemma {:induction false} RunOperandsOk(st: State, ops: seq<seq<Attr>>, rest: seq<Event>)
    requires BuildOperands(ops).Ok?
    ensures Run(st, OperandEvents(ops) + rest)
         == Run(st.(form := st.form.(operands := st.form.operands + BuildOperands(ops).value)), rest)
    decreases |ops|
  {
    if |ops| == 0 {
      assert OperandEvents(ops) + rest == rest && st.form.operands + [] == st.form.operands;
    } else {
      var next := st.(form := st.form.(operands := st.form.operands + [ReadOperand(ops[0]).value]));
      RunFirstOperand(st, ops, rest);
      RunOperandsOk(next, ops[1..], rest);
      BuildOperandsAppend(st.form.operands, ops);
    }
  }

  /** The first operand event of a list. */
  lemma RunFirstOperand(st: State, ops: seq<seq<Attr>>, rest: seq<Event>)
    requires |ops| > 0 && ReadOperand(ops[0]).Ok?
    ensures Run(st, OperandEvents(ops) + rest)
         == Run(st.(form := st.form.(operands := st.form.operands + [ReadOperand(ops[0]).value])), OperandEvents(ops[1..]) + rest)
  {
    var ev := Empty("Operand", ops[0]);
    assert OperandEvents(ops) + rest == [ev] + (OperandEvents(ops[1..]) + rest);
    RunCons(st, ev, OperandEvents(ops[1..]) + rest);
  }

  /** Appending the operands of a list one by one appends them all. */
  lemma BuildOperandsAppend(prefix: seq<Operand>, ops: seq<seq<Attr>>)
    requires |ops| > 0 && BuildOperands(ops).Ok?
    ensures ReadOperand(ops[0]).Ok? && BuildOperands(ops[1..]).Ok?
    ensures prefix + [ReadOperand(ops[0]).value] + BuildOperands(ops[1..]).value == prefix + BuildOperands(ops).value
  {
    var op :| ReadOperand(ops[0]) == Ok(op);
    var rest :| BuildOperands(ops[1..]) == Ok(rest);
    assert BuildOperands(ops) == Ok([op] + rest);
    assert prefix + [op] + rest == prefix + ([op] + rest);
  }

  lemma {:induction false} RunOperandsFail(st: State, ops: seq<seq<Attr>>, rest: seq<Event>)
    requires BuildOperands(ops).Err?
    ensures Run(st, OperandEvents(ops) + rest) == Err(BuildOperands(ops).error)
    decreases |ops|
  {
    var ev := Empty("Operand", ops[0]);
    var tail := OperandEvents(ops[1..]) + rest;
    assert OperandEvents(ops) + rest == [ev] + tail;
    RunCons(st, ev, tail);
    if ReadOperand(ops[0]).Ok? {
      var next := st.(form := st.form.(operands := st.form.operands + [ReadOperand(ops[0]).value]));
      assert Step(st, ev) == Ok(next);
      BuildOperandsTailFails(ops);
      RunOperandsFail(next, ops[1..], rest);
    }
  }

  /** A form element appends the form it builds to the instruction slot and leaves
      it in the form slot. */
  lemma RunForm(st: State, f: FormElem, rest: seq<Event>)
    ensures Run(st, FormEvents(f) + rest)
         == match BuildForm(f)
            case Err(e) => Err(e)
            case Ok(g) => Run(st.(instr := st.instr.(forms := st.instr.forms + [g]), form := g), rest)
  {
    var open := Start("InstructionForm", f.attrs);
    var close := End("InstructionForm");
    var inner := OperandEvents(f.operands) + ([close] + rest);
    assert FormEvents(f) + rest == [open] + inner;
    assert ([open] + inner)[0] == open && ([open] + inner)[1..] == inner;
    var st1 := st.(form := StartForm(f.attrs));
    RunOperands(st1, f.operands, [close] + rest);
    assert ([close] + rest)[0] == close && ([close] + rest)[1..] == rest;
    if BuildOperands(f.operands).Ok? {
      var os := BuildOperands(f.operands).value;
      assert st1.form.operands + os == os;
    }
  }

  /** A run of form elements appends the forms it builds, in order, or stops the
      loop with the error of the first bad form. */
  lemma {:induction false} RunForms(st: State, fs: seq<FormElem>, rest: seq<Event>)
    ensures Run(st, FormsEvents(fs) + rest)
         == match BuildForms(fs)
            case Err(e) => Err(e)
            case Ok(gs) => Run(st.(instr := st.instr.(forms := st.instr.forms + gs), form := LastOr(st.form, gs)), rest)
  {
    if BuildForms(fs).Ok? {
      RunFormsOk(st, fs, rest);
    } else {
      RunFormsFail(st, fs, rest);
    }
  }

  lemma {:induction false} RunFormsOk(st: State, fs: seq<FormElem>, rest: seq<Event>)
    requires BuildForms(fs).Ok?
    ensures Run(st, FormsEvents(fs) + rest)
         == Run(st.(instr := st.instr.(forms := st.instr.forms + BuildForms(fs).value),
                    form := LastOr(st.form, BuildForms(fs).value)), rest)
    decreases |fs|
  {
    if |fs| == 0 {
      assert FormsEvents(fs) + rest == rest && st.instr.forms + [] == st.instr.forms;
    } else {
      var tail := FormsEvents(fs[1..]) + rest;
      assert FormsEvents(fs) + rest == FormEvents(fs[0]) + tail;
      BuildFormsAppend(st.instr.forms, st.form, fs);
      var g := BuildForm(fs[0]).value;
      RunForm(st, fs[0], tail);
      RunFormsOk(st.(instr := st.instr.(forms := st.instr.forms + [g]), form := g), fs[1..], rest);
    }
  }

  lemma {:induction false} RunFormsFail(st: State, fs: seq<FormElem>, rest: seq<Event>)
    requires BuildForms(fs).Err?
    ensures Run(st, FormsEvents(fs) + rest) == Err(BuildForms(fs).error)
    decreases |fs|
  {
    var tail := FormsEvents(fs[1..]) + rest;
    assert FormsEvents(fs) + rest == FormEvents(fs[0]) + tail;
    RunForm(st, fs[0], tail);
    if BuildForm(fs[0]).Ok? {
      var g := BuildForm(fs[0]).value;
      BuildFormsTailFails(fs);
      RunFormsFail(st.(instr := st.instr.(forms := st.instr.forms + [g]), form := g), fs[1..], rest);
    }
  }

  /** Building a non-empty run of forms is building the first and then the rest. */
  lemma BuildFormsAppend(prefix: seq<InstructionForm>, slot: InstructionForm, fs: seq<FormElem>)
    requires |fs| > 0 && BuildForms(fs).Ok?
    ensures BuildForm(fs[0]).Ok? && BuildForms(fs[1..]).Ok?
    ensures prefix + [BuildForm(fs[0]).value] + BuildForms(fs[1..]).value == prefix + BuildForms(fs).value
    ensures LastOr(BuildForm(fs[0]).value, BuildForms(fs[1..]).value) == LastOr(slot, BuildForms(fs).value)
  {
    var g :| BuildForm(fs[0]) == Ok(g);
    var rest :| BuildForms(fs[1..]) == Ok(rest);
    assert BuildForms(fs) == Ok([g] + rest);
    ConsForm(prefix, slot, g, rest);
  }

  lemma ConsForm(prefix: seq<InstructionForm>, slot: InstructionForm, g: InstructionForm, rest: seq<InstructionForm>)
    ensures prefix + [g] + rest == prefix + ([g] + rest)
    ensures LastOr(g, rest) == LastOr(slot, [g] + rest)
  {
  }

  /** A bad form after a good first one makes the whole run fail with its error. */
  lemma BuildFormsTailFails(fs: seq<FormElem>)
    requires |fs| > 0 && BuildForm(fs[0]).Ok? && BuildForms(fs[1..]).Err?
    ensures BuildForms(fs) == BuildForms(fs[1..])
  {
  }

  /** An instruction element files the instruction it builds under its name,
      replacing any earlier entry, and leaves it in the instruction slot. */
  lemma RunInstruction(st: State, i: InstrElem, rest: seq<Event>)
    ensures Run(st, InstrEvents(i) + rest)
         == match BuildInstruction(i)
            case Err(e) => Err(e)
            case Ok(x) => Run(State(st.index[x.name := x], x, LastOr(st.form, x.forms)), rest)
  {
    var open := Start("Instruction", i.attrs);
    var close := End("Instruction");
    var inner := FormsEvents(i.forms) + ([close] + rest);
    assert InstrEvents(i) + rest == [open] + inner;
    assert ([open] + inner)[0] == open && ([open] + inner)[1..] == inner;
    var st1 := st.(instr := StartInstruction(i.attrs));
    RunForms(st1, i.forms, [close] + rest);
    assert ([close] + rest)[0] == close && ([close] + rest)[1..] == rest;
    if BuildForms(i.forms).Ok? {
      assert [] + BuildForms(i.forms).value == BuildForms(i.forms).value;
    }
  }

  /** The index the loop reaches from any state over a document's events is the
      element-by-element index built on top of the state's index. */
  lemma {:induction false} RunDocument(st: State, d: seq<InstrElem>)
    ensures (match Run(st, InstrsEvents(d) + [Eof]) case Err(e) => Err(e) case Ok(s) => Ok(s.index))
         == BuildIndexFrom(st.index, d)
    decreases |d|
  {
    if |d| == 0 {
      assert InstrsEvents(d) + [Eof] == [Eof];
    } else {
      var tail := InstrsEvents(d[1..]) + [Eof];
      assert InstrsEvents(d) + [Eof] == InstrEvents(d[0]) + tail;
      RunInstruction(st, d[0], tail);
      match BuildInstruction(d[0])
      case Err(e) =>
      case Ok(x) =>
        RunDocument(State(st.index[x.name := x], x, LastOr(st.form, x.forms)), d[1..]);
    }
  }

  /** `populate_instructions` on a well-nested document yields exactly the index
      built element by element. */
  lemma PopulateDocument(d: seq<InstrElem>)
    ensures Populate(DocEvents(d)) == BuildIndex(d)
  {
    RunDocument(Initial, d);
  }

  // ---------------------------------------------------------------------------
  // Properties of the element-by-element index

  /** Adding an instruction element at the end files it last: it overrides any
      earlier instruction of the same name and keeps every other entry. */
  lemma {:induction false} BuildIndexFromAppend(m: map<string, Instruction>, d: seq<InstrElem>, e: InstrElem)
    ensures BuildIndexFrom(m, d + [e])
         == match BuildIndexFrom(m, d)
            case Err(x) => Err(x)
            case Ok(n) => (match BuildInstruction(e) case Err(x) => Err(x) case Ok(i) => Ok(n[i.name := i]))
    decreases |d|
  {
    if |d| == 0 {
      assert d + [e] == [e];
      assert [e][1..] == [];
    } else {
      assert (d + [e])[0] == d[0] && (d + [e])[1..] == d[1..] + [e];
      match BuildInstruction(d[0])
      case Err(x) =>
      case Ok(i) => BuildIndexFromAppend(m[i.name := i], d[1..], e);
    }
  }

  /** Adding an instruction element at the end overrides any earlier instruction
      of the same name and keeps every other entry. */
  lemma AppendInstruction(d: seq<InstrElem>, e: InstrElem)
    requires BuildIndex(d + [e]).Ok?
    ensures BuildInstruction(e).Ok? && BuildIndex(d).Ok?
    ensures BuildInstruction(e).value.name in BuildIndex(d + [e]).value
    ensures BuildIndex(d + [e]).value[BuildInstruction(e).value.name] == BuildInstruction(e).value
    ensures forall k :: k in BuildIndex(d).value && k != BuildInstruction(e).value.name ==>
              k in BuildIndex(d + [e]).value && BuildIndex(d + [e]).value[k] == BuildIndex(d).value[k]
  {
    BuildIndexFromAppend(map[], d, e);
  }

  /** The name an instruction element is filed under, read from its start tag. */
  function ElemName(i: InstrElem): string {
    StartInstruction(i.attrs).name
  }

  /** Filing a document in two parts is filing the first part, then the second on
      top of the result. */
  lemma {:induction false} BuildIndexFromConcat(m: map<string, Instruction>, a: seq<InstrElem>, b: seq<InstrElem>)
    ensures BuildIndexFrom(m, a + b)
         == match BuildIndexFrom(m, a)
            case Err(x) => Err(x)
            case Ok(n) => BuildIndexFrom(n, b)
    decreases |a|
  {
    if |a| == 0 {
      assert a + b == b;
    } else {
      assert (a + b)[0] == a[0] && (a + b)[1..] == a[1..] + b;
      match BuildInstruction(a[0])
      case Err(x) =>
      case Ok(i) => BuildIndexFromConcat(m[i.name := i], a[1..], b);
    }
  }

  /** An entry survives a run of instructions none of which has its name. */
  lemma {:induction false} BuildIndexFromKeeps(m: map<string, Instruction>, d: seq<InstrElem>, key: string)
    requires BuildIndexFrom(m, d).Ok?
    requires key in m
    requires forall k :: 0 <= k < |d| ==> ElemName(d[k]) != key
    ensures key in BuildIndexFrom(m, d).value && BuildIndexFrom(m, d).value[key] == m[key]
    decreases |d|
  {
    if |d| > 0 {
      var i := BuildInstruction(d[0]).value;
      assert i.name == ElemName(d[0]);
      forall k | 0 <= k < |d[1..]|
        ensures ElemName(d[1..][k]) != key
      {
        assert d[1..][k] == d[k + 1];
      }
      BuildIndexFromKeeps(m[i.name := i], d[1..], key);
    }
  }

  /** The last instruction of a given name wins outright, wherever it stands: its
      entry is exactly that instruction, with none of the forms of earlier ones
      merged in, provided no later instruction has the same name. */
  lemma LastInstructionWins(d1: seq<InstrElem>, e: InstrElem, d2: seq<InstrElem>)
    requires BuildIndex(d1 + [e] + d2).Ok?
    requires forall k :: 0 <= k < |d2| ==> ElemName(d2[k]) != ElemName(e)
    ensures BuildInstruction(e).Ok? && BuildInstruction(e).value.name == ElemName(e)
    ensures ElemName(e) in BuildIndex(d1 + [e] + d2).value
    ensures BuildIndex(d1 + [e] + d2).value[ElemName(e)] == BuildInstruction(e).value
  {
    BuildIndexFromConcat(map[], d1 + [e], d2);
    BuildIndexFromAppend(map[], d1, e);
    var n := BuildIndex(d1 + [e]).value;
    BuildIndexFromKeeps(n, d2, ElemName(e));
  }

  /** An index is only built when every instruction of the document builds. */
  lemma {:induction false} BuildIndexFromAllOk(m: map<string, Instruction>, d: seq<InstrElem>)
    requires BuildIndexFrom(m, d).Ok?
    ensures forall k :: 0 <= k < |d| ==> BuildInstruction(d[k]).Ok?
    decreases |d|
  {
    if |d| > 0 {
      var i := BuildInstruction(d[0]).value;
      BuildIndexFromAllOk(m[i.name := i], d[1..]);
      forall k | 1 <= k < |d|
        ensures BuildInstruction(d[k]).Ok?
      {
        assert d[k] == d[1..][k - 1];
      }
    }
  }

  /** The keys of the index are the keys it started with and the names of the
      document's instructions. */
  lemma {:induction false} BuildIndexFromKeys(m: map<string, Instruction>, d: seq<InstrElem>, key: string)
    requires BuildIndexFrom(m, d).Ok?
    ensures key in BuildIndexFrom(m, d).value <==>
              key in m || exists k :: 0 <= k < |d| && BuildInstruction(d[k]).Ok? && BuildInstruction(d[k]).value.name == key
    decreases |d|
  {
    if |d| > 0 {
      var i := BuildInstruction(d[0]).value;
      var rest := d[1..];
      BuildIndexFromKeys(m[i.name := i], rest, key);
      if exists k :: 0 <= k < |rest| && BuildInstruction(rest[k]).Ok? && BuildInstruction(rest[k]).value.name == key {
        var k :| 0 <= k < |rest| && BuildInstruction(rest[k]).Ok? && BuildInstruction(rest[k]).value.name == key;
        assert d[k + 1] == rest[k];
      }
      if exists k :: 0 <= k < |d| && BuildInstruction(d[k]).Ok? && BuildInstruction(d[k]).value.name == key {
        var k :| 0 <= k < |d| && BuildInstruction(d[k]).Ok? && BuildInstruction(d[k]).value.name == key;
        if k > 0 {
          assert rest[k - 1] == d[k];
        }
      }
    }
  }
}
