/** `populate_instructions` of populate.rs: a single pass over the stream of XML
    events that keeps one instruction and one form "under construction" and an
    index from instruction names to instructions. The XML tokenizer itself is not
    modelled; its output is the sequence of `Event`s below. */
module Loader {
  import opened Wrappers
  import opened Text
  import opened OperandTypes
  import opened Instructions

  /** One attribute of an element, in document order. */
  datatype Attr = Attr(key: string, value: string)

  /** The events the tokenizer hands to the loop. `Start` is an opening tag,
      `Empty` a self-closing one, `End` a closing tag; `Other` stands for every
      event the loop ignores (text, comments, declarations, ...). */
  datatype Event =
    | Start(name: string, attrs: seq<Attr>)
    | Empty(name: string, attrs: seq<Attr>)
    | End(name: string)
    | Eof
    | Other

  /** Why the pass gives up: an operand `type` that is no `OperandType` spelling
      (carrying the offending text), or an `input`/`output` value other than
      `true` and `false`. */
  datatype PopulateError = UnknownOperandType(variant: string) | UnknownFlagValue

  /** The loop's mutable variables: the index built so far and the two slots. */
  datatype State = State(index: map<string, Instruction>, instr: Instruction, form: InstructionForm)

  /** The state before the first event: an empty index and two default slots. */
  const Initial: State := State(map[], DefaultInstruction, DefaultForm)

  /** The value of the last attribute named `key`, if there is one. Attributes are
      applied in order, so a later duplicate overrides an earlier one. */
  function Lookup(attrs: seq<Attr>, key: string): (r: Option<string>)
    ensures r.Some? <==> exists k :: 0 <= k < |attrs| && attrs[k].key == key
    ensures r.Some? ==> exists k :: 0 <= k < |attrs| && attrs[k] == Attr(key, r.value)
                                    && forall j :: k < j < |attrs| ==> attrs[j].key != key
  {
    if |attrs| == 0 then None
    else if attrs[|attrs| - 1].key == key then Some(attrs[|attrs| - 1].value)
    else Lookup(attrs[..|attrs| - 1], key)
  }

  // ---------------------------------------------------------------------------
  // Opening an instruction

  /** One attribute of `<Instruction>`: `name` is lower-cased, `summary` kept as it
      is, anything else ignored. */
  function InstructionAttr(i: Instruction, a: Attr): Instruction {
    match a.key
    case "name" => i.(name := Lower(a.value))
    case "summary" => i.(summary := a.value)
    case _ => i
  }

  /** The attribute loop of `<Instruction>`, applied to a default instruction. A
      missing `name` leaves the name empty; a missing `summary` leaves it empty. */
  function StartInstruction(attrs: seq<Attr>): (r: Instruction)
    ensures r.name == (match Lookup(attrs, "name") case Some(v) => Lower(v) case None => "")
    ensures r.summary == (match Lookup(attrs, "summary") case Some(v) => v case None => "")
    ensures r.arch == None && r.forms == []
  {
    if |attrs| == 0 then DefaultInstruction
    else InstructionAttr(StartInstruction(attrs[..|attrs| - 1]), attrs[|attrs| - 1])
  }

  // ---------------------------------------------------------------------------
  // Opening a form

  /** One attribute of `<InstructionForm>`: both names are lower-cased. */
  function FormAttr(f: InstructionForm, a: Attr): InstructionForm {
    match a.key
    case "gas-name" => f.(gasName := Some(Lower(a.value)))
    case "go-name" => f.(goName := Some(Lower(a.value)))
    case _ => f
  }

  /** The attribute loop of `<InstructionForm>`, applied to a default form. */
  function StartForm(attrs: seq<Attr>): (r: InstructionForm)
    ensures r.gasName == (match Lookup(attrs, "gas-name") case Some(v) => Some(Lower(v)) case None => None)
    ensures r.goName == (match Lookup(attrs, "go-name") case Some(v) => Some(Lower(v)) case None => None)
    ensures r.encoding == "" && r.operands == []
  {
    if |attrs| == 0 then DefaultForm
    else FormAttr(StartForm(attrs[..|attrs| - 1]), attrs[|attrs| - 1])
  }

  // ---------------------------------------------------------------------------
  // Reading an operand

  /** The operand the attribute loop starts from: type `k`, no flags. */
  const DefaultOperand: Operand := Operand(K, None, None)

  /** The two accepted flag spellings. */
  function ParseFlag(s: string): Option<bool> {
    match s
    case "true" => Some(true)
    case "false" => Some(false)
    case _ => None
  }

  /** The error an attribute of `<Operand/>` raises, if any. */
  function AttrError(a: Attr): Option<PopulateError> {
    match a.key
    case "type" => if Parse(a.value).None? then Some(UnknownOperandType(a.value)) else None
    case "input" => if ParseFlag(a.value).None? then Some(UnknownFlagValue) else None
    case "output" => if ParseFlag(a.value).None? then Some(UnknownFlagValue) else None
    case _ => None
  }

  /** One attribute of `<Operand/>`. */
  function OperandAttr(op: Operand, a: Attr): (r: Result<Operand, PopulateError>)
    ensures r.Err? <==> AttrError(a).Some?
    ensures r.Err? ==> r.error == AttrError(a).value
  {
    match a.key
    case "type" =>
      (match Parse(a.value)
       case Some(t) => Ok(op.(opType := t))
       case None => Err(UnknownOperandType(a.value)))
    case "input" =>
      (match ParseFlag(a.value)
       case Some(b) => Ok(op.(input := Some(b)))
       case None => Err(UnknownFlagValue))
    case "output" =>
      (match ParseFlag(a.value)
       case Some(b) => Ok(op.(output := Some(b)))
       case None => Err(UnknownFlagValue))
    case _ => Ok(op)
  }

  /** The attribute loop of `<Operand/>`: it stops at the first bad attribute. */
  function ReadOperand(attrs: seq<Attr>): Result<Operand, PopulateError> {
    if |attrs| == 0 then Ok(DefaultOperand)
    else
      var op :- ReadOperand(attrs[..|attrs| - 1]);
      OperandAttr(op, attrs[|attrs| - 1])
  }

  /** Reading an operand fails exactly when one of its attributes is bad, and then
      with the error of the first bad one. */
  lemma {:induction false} ReadOperandFails(attrs: seq<Attr>)
    ensures ReadOperand(attrs).Ok? <==> forall k :: 0 <= k < |attrs| ==> AttrError(attrs[k]).None?
    ensures ReadOperand(attrs).Err? ==>
              exists k :: 0 <= k < |attrs| && AttrError(attrs[k]) == Some(ReadOperand(attrs).error)
                          && forall j :: 0 <= j < k ==> AttrError(attrs[j]).None?
  {
    if |attrs| > 0 {
      var init := attrs[..|attrs| - 1];
      ReadOperandFails(init);
      assert forall k :: 0 <= k < |init| ==> init[k] == attrs[k];
    }
  }

  /** A successfully read operand takes its type from the last `type` attribute,
      and is of type `k` when there is none. */
  lemma {:induction false} ReadOperandType(attrs: seq<Attr>)
    requires ReadOperand(attrs).Ok?
    ensures match Lookup(attrs, "type")
            case None => ReadOperand(attrs).value.opType == K
            case Some(v) => Parse(v) == Some(ReadOperand(attrs).value.opType)
  {
    if |attrs| > 0 {
      ReadOperandType(attrs[..|attrs| - 1]);
    }
  }

  /** A successfully read operand takes each flag from the last attribute of that
      name; the flag is absent when there is none. */
  lemma {:induction false} ReadOperandFlags(attrs: seq<Attr>)
    requires ReadOperand(attrs).Ok?
    ensures ReadOperand(attrs).value.input == (match Lookup(attrs, "input") case Some(v) => ParseFlag(v) case None => None)
    ensures ReadOperand(attrs).value.output == (match Lookup(attrs, "output") case Some(v) => ParseFlag(v) case None => None)
  {
    if |attrs| > 0 {
      ReadOperandFlags(attrs[..|attrs| - 1]);
    }
  }

  // ---------------------------------------------------------------------------
  // The event loop

  /** Events the loop passes over without touching its state: everything except
      the opening and closing tags of `Instruction` and `InstructionForm`, the
      self-closing `Operand` tag and the end of the input. A self-closing
      `Instruction` or `InstructionForm` and a non-self-closing `Operand` are among
      them. */
  predicate Inert(ev: Event) {
    match ev
    case Start(n, _) => n != "Instruction" && n != "InstructionForm"
    case Empty(n, _) => n != "Operand"
    case End(n) => n != "Instruction" && n != "InstructionForm"
    case Eof => false
    case Other => true
  }

  /** The one kind of event that can stop the loop with an error. */
  predicate BadEvent(ev: Event) {
    ev.Empty? && ev.name == "Operand" && ReadOperand(ev.attrs).Err?
  }

  /** One iteration of the loop for an event other than the end of the input.
      Closing an `Instruction` stores the slot under its name, replacing any earlier
      entry of that name; closing an `InstructionForm` appends the form slot to the
      instruction slot; neither closing tag resets a slot. */
  function Step(st: State, ev: Event): (r: Result<State, PopulateError>)
    requires !ev.Eof?
    ensures r.Err? <==> BadEvent(ev)
    ensures Inert(ev) ==> r == Ok(st)
    ensures r.Ok? && ev != End("Instruction") ==> r.value.index == st.index
    ensures r.Ok? && ev == End("Instruction") ==>
              r.value.index.Keys == st.index.Keys + {st.instr.name}
              && r.value.index[st.instr.name] == st.instr
              && forall k :: k in st.index && k != st.instr.name ==> r.value.index[k] == st.index[k]
    ensures r.Ok? && !(ev.Start? && ev.name == "Instruction") && ev != End("InstructionForm") ==> r.value.instr == st.instr
    ensures r.Ok? && !(ev.Start? && ev.name == "InstructionForm") && !(ev.Empty? && ev.name == "Operand") ==> r.value.form == st.form
  {
    match ev
    case Start(n, attrs) =>
      (match n
       case "Instruction" => Ok(st.(instr := StartInstruction(attrs)))
       case "InstructionForm" => Ok(st.(form := StartForm(attrs)))
       case _ => Ok(st))
    case Empty(n, attrs) =>
      (match n
       case "Operand" =>
         var op :- ReadOperand(attrs);
         Ok(st.(form := st.form.(operands := st.form.operands + [op])))
       case _ => Ok(st))
    case End(n) =>
      (match n
       case "Instruction" => Ok(st.(index := st.index[st.instr.name := st.instr]))
       case "InstructionForm" => Ok(st.(instr := st.instr.(forms := st.instr.forms + [st.form])))
       case _ => Ok(st))
    case Other => Ok(st)
  }

  /** The loop from a given state: it stops at the first `Eof` (or when the events
      run out) and returns the state it reached, or the first error. */
  function Run(st: State, evs: seq<Event>): Result<State, PopulateError>
    decreases |evs|
  {
    if |evs| == 0 || evs[0].Eof? then Ok(st)
    else
      var next :- Step(st, evs[0]);
      Run(next, evs[1..])
  }

  /** The loop over an event other than `Eof` followed by more events. */
  lemma {:induction false} RunCons(st: State, ev: Event, tail: seq<Event>)
    requires !ev.Eof?
    ensures Run(st, [ev] + tail) == match Step(st, ev) case Err(e) => Err(e) case Ok(s) => Run(s, tail)
  {
    assert ([ev] + tail)[0] == ev && ([ev] + tail)[1..] == tail;
  }

  /** `populate_instructions`: the index the loop has built when it stops. */
  function Populate(evs: seq<Event>): Result<map<string, Instruction>, PopulateError> {
    var st :- Run(Initial, evs);
    Ok(st.index)
  }

  // ---------------------------------------------------------------------------
  // The loop as written, with mutable variables

  /** The attribute loop of `<Operand/>` with an early return on the first bad
      attribute. */
  method ReadOperandAttrs(attrs: seq<Attr>) returns (r: Result<Operand, PopulateError>)
    ensures r == ReadOperand(attrs)
  {
    var op := DefaultOperand;
    var i := 0;
    while i < |attrs|
      invariant 0 <= i <= |attrs|
      invariant ReadOperand(attrs[..i]) == Ok(op)
    {
      var a := attrs[i];
      assert attrs[..i + 1][..i] == attrs[..i];
      match a.key {
        case "type" =>
          var t := Parse(a.value);
          if t.None? {
            ReadOperandStopsAtError(attrs, i + 1);
            return Err(UnknownOperandType(a.value));
          }
          op := op.(opType := t.value);
        case "input" =>
          var b := ParseFlag(a.value);
          if b.None? {
            ReadOperandStopsAtError(attrs, i + 1);
            return Err(UnknownFlagValue);
          }
          op := op.(input := b);
        case "output" =>
          var b := ParseFlag(a.value);
          if b.None? {
            ReadOperandStopsAtError(attrs, i + 1);
            return Err(UnknownFlagValue);
          }
          op := op.(output := b);
        case _ =>
      }
      i := i + 1;
    }
    assert attrs[..i] == attrs;
    return Ok(op);
  }

  /** Once a prefix of the attributes fails, the whole list fails the same way. */
  lemma {:induction false} ReadOperandStopsAtError(attrs: seq<Attr>, n: nat)
    requires n <= |attrs| && ReadOperand(attrs[..n]).Err?
    ensures ReadOperand(attrs) == ReadOperand(attrs[..n])
    decreases |attrs| - n
  {
    if n < |attrs| {
      assert attrs[..n + 1][..n] == attrs[..n];
      ReadOperandStopsAtError(attrs, n + 1);
    } else {
      assert attrs[..n] == attrs;
    }
  }

  /** `populate_instructions` as a loop over the events with the index and the two
      slots as variables; it computes what `Populate` defines. */
  method PopulateInstructions(events: seq<Event>) returns (r: Result<map<string, Instruction>, PopulateError>)
    ensures r == Populate(events)
  {
    var index: map<string, Instruction> := map[];
    var instr := DefaultInstruction;
    var form := DefaultForm;
    var i := 0;
    while i < |events| && !events[i].Eof?
      invariant 0 <= i <= |events|
      invariant Run(State(index, instr, form), events[i..]) == Run(Initial, events)
    {
      match events[i] {
        case Start(name, attrs) =>
          if name == "Instruction" {
            instr := StartInstruction(attrs);
          } else if name == "InstructionForm" {
            form := StartForm(attrs);
          }
        case Empty(name, attrs) =>
          if name == "Operand" {
            var op := ReadOperandAttrs(attrs);
            if op.Err? {
              return Err(op.error);
            }
            form := form.(operands := form.operands + [op.value]);
          }
        case End(name) =>
          if name == "Instruction" {
            index := index[instr.name := instr];
          } else if name == "InstructionForm" {
            instr := instr.(forms := instr.forms + [form]);
          }
        case Other =>
      }
      i := i + 1;
    }
    return Ok(index);
  }

  // ---------------------------------------------------------------------------
  // Properties of the loop

  /** The events before the first `Eof`: the only ones the loop looks at. */
  function Live(evs: seq<Event>): (r: seq<Event>)
    ensures |r| <= |evs| && r == evs[..|r|]
    ensures forall k :: 0 <= k < |r| ==> !r[k].Eof?
    ensures |r| < |evs| ==> evs[|r|].Eof?
  {
    if |evs| == 0 || evs[0].Eof? then [] else [evs[0]] + Live(evs[1..])
  }

  /** The loop never looks past the first `Eof`. */
  lemma {:induction false} RunStopsAtEof(st: State, evs: seq<Event>)
    ensures Run(st, evs) == Run(st, Live(evs))
    decreases |evs|
  {
    if |evs| > 0 && !evs[0].Eof? {
      var live := Live(evs);
      assert live[0] == evs[0] && live[1..] == Live(evs[1..]);
      match Step(st, evs[0])
      case Ok(next) => RunStopsAtEof(next, evs[1..]);
      case Err(_) =>
    }
  }

  /** Whatever follows the first `Eof` is ignored. */
  lemma PopulateIgnoresAfterEof(a: seq<Event>, b: seq<Event>)
    requires forall k :: 0 <= k < |a| ==> !a[k].Eof?
    ensures Populate(a + [Eof] + b) == Populate(a)
  {
    LiveOfEofFree(a, [Eof] + b);
    LiveOfEofFree(a, []);
    assert a + [Eof] + b == a + ([Eof] + b) && a + [] == a;
    RunStopsAtEof(Initial, a + [Eof] + b);
    RunStopsAtEof(Initial, a);
  }

  /** The live part of a sequence that starts with `Eof`-free events and then
      reaches an `Eof` (or its end) is exactly those events. */
  lemma {:induction false} LiveOfEofFree(a: seq<Event>, b: seq<Event>)
    requires forall k :: 0 <= k < |a| ==> !a[k].Eof?
    requires |b| == 0 || b[0].Eof?
    ensures Live(a + b) == a
  {
    if |a| > 0 {
      assert (a + b)[1..] == a[1..] + b;
      LiveOfEofFree(a[1..], b);
    } else {
      assert a + b == b;
    }
  }

  /** Some event of the run is a bad `<Operand/>`. */
  predicate SomeBad(evs: seq<Event>) {
    exists k :: 0 <= k < |evs| && BadEvent(evs[k])
  }

  /** The loop fails exactly when a live event is a self-closing `Operand` with a
      bad attribute. */
  lemma {:induction false} RunFails(st: State, evs: seq<Event>)
    ensures Run(st, evs).Err? <==> SomeBad(Live(evs))
    decreases |evs|
  {
    if |evs| > 0 && !evs[0].Eof? {
      var live := Live(evs);
      assert live[0] == evs[0] && live[1..] == Live(evs[1..]);
      SomeBadCons(live);
      match Step(st, evs[0])
      case Ok(next) =>
        RunFails(next, evs[1..]);
      case Err(e) =>
    }
  }

  /** A run of events holds a bad one exactly when its first one is bad or the
      rest holds one. */
  lemma SomeBadCons(evs: seq<Event>)
    requires |evs| > 0
    ensures SomeBad(evs) <==> BadEvent(evs[0]) || SomeBad(evs[1..])
  {
    if SomeBad(evs) {
      var k :| 0 <= k < |evs| && BadEvent(evs[k]);
      if k > 0 {
        assert evs[1..][k - 1] == evs[k];
      }
    }
    if SomeBad(evs[1..]) {
      var k :| 0 <= k < |evs[1..]| && BadEvent(evs[1..][k]);
      assert evs[k + 1] == evs[1..][k];
    }
  }

  /** A failing loop reports the error of the first bad live event. */
  lemma {:induction false} RunFirstError(st: State, evs: seq<Event>)
    requires Run(st, evs).Err?
    ensures exists k :: 0 <= k < |Live(evs)| && BadEvent(Live(evs)[k])
                        && (forall j :: 0 <= j < k ==> !BadEvent(Live(evs)[j]))
                        && Run(st, evs).error == ReadOperand(Live(evs)[k].attrs).error
    decreases |evs|
  {
    var live := Live(evs);
    assert live[0] == evs[0] && live[1..] == Live(evs[1..]);
    match Step(st, evs[0])
    case Ok(next) =>
      RunFirstError(next, evs[1..]);
      var k :| 0 <= k < |Live(evs[1..])| && BadEvent(Live(evs[1..])[k])
               && (forall j :: 0 <= j < k ==> !BadEvent(Live(evs[1..])[j]))
               && Run(next, evs[1..]).error == ReadOperand(Live(evs[1..])[k].attrs).error;
      assert live[k + 1] == Live(evs[1..])[k];
      assert forall j :: 1 <= j < k + 1 ==> live[j] == Live(evs[1..])[j - 1];
    case Err(e) =>
      assert BadEvent(live[0]);
  }

  /** `populate_instructions` fails exactly when an operand before the end of the
      input has a bad `type`, `input` or `output` attribute. */
  lemma PopulateFails(evs: seq<Event>)
    ensures Populate(evs).Err? <==> exists k :: 0 <= k < |Live(evs)| && BadEvent(Live(evs)[k])
    ensures Populate(evs).Err? ==>
              exists k :: 0 <= k < |Live(evs)| && BadEvent(Live(evs)[k])
                          && (forall j :: 0 <= j < k ==> !BadEvent(Live(evs)[j]))
                          && Populate(evs).error == ReadOperand(Live(evs)[k].attrs).error
  {
    RunFails(Initial, evs);
    if Populate(evs).Err? {
      RunFirstError(Initial, evs);
    }
  }

  /** The loop over a concatenation of events, the first part free of `Eof`, is the
      loop over the first part followed by the loop over the second. */
  lemma {:induction false} RunAppend(st: State, a: seq<Event>, b: seq<Event>)
    requires forall k :: 0 <= k < |a| ==> !a[k].Eof?
    ensures Run(st, a + b) == match Run(st, a) case Err(e) => Err(e) case Ok(s) => Run(s, b)
    decreases |a|
  {
    if |a| == 0 {
      assert a + b == b;
    } else {
      assert (a + b)[0] == a[0] && (a + b)[1..] == a[1..] + b;
      match Step(st, a[0])
      case Ok(next) => RunAppend(next, a[1..], b);
      case Err(_) =>
    }
  }

  /** Removing an event the loop ignores does not change the result. */
  lemma PopulateSkipsInert(a: seq<Event>, ev: Event, b: seq<Event>)
    requires forall k :: 0 <= k < |a| ==> !a[k].Eof?
    requires Inert(ev)
    ensures Populate(a + [ev] + b) == Populate(a + b)
  {
    assert a + [ev] + b == a + ([ev] + b);
    RunAppend(Initial, a, [ev] + b);
    RunAppend(Initial, a, b);
    if Run(Initial, a).Ok? {
      assert ([ev] + b)[0] == ev && ([ev] + b)[1..] == b;
    }
  }

  /** Both assembler names of a form, where present, are in lower case. */
  predicate LowerNames(f: InstructionForm) {
    (f.gasName.Some? ==> IsLower(f.gasName.value)) && (f.goName.Some? ==> IsLower(f.goName.value))
  }

  /** What every instruction the loop builds looks like: a lower-case name, no
      architecture, and forms with lower-case names. */
  predicate WellBuilt(i: Instruction) {
    IsLower(i.name) && i.arch.None? && forall k :: 0 <= k < |i.forms| ==> LowerNames(i.forms[k])
  }

  /** The invariant of the loop: both slots are well built and the index files
      every instruction under its own name. */
  predicate Consistent(st: State) {
    WellBuilt(st.instr) && LowerNames(st.form)
    && forall key :: key in st.index ==> st.index[key].name == key && WellBuilt(st.index[key])
  }

  /** The loop keeps its invariant. */
  lemma {:induction false} RunConsistent(st: State, evs: seq<Event>)
    requires Consistent(st) && Run(st, evs).Ok?
    ensures Consistent(Run(st, evs).value)
    decreases |evs|
  {
    if |evs| > 0 && !evs[0].Eof? {
      var next := Step(st, evs[0]).value;
      assert Consistent(next);
      RunConsistent(next, evs[1..]);
    }
  }

  /** Every key of the index is in lower case and names the instruction filed under
      it; no instruction has an architecture, and all form names are lower case. */
  lemma PopulateIndexShape(evs: seq<Event>)
    requires Populate(evs).Ok?
    ensures forall key :: key in Populate(evs).value ==>
              IsLower(key) && Populate(evs).value[key].name == key && WellBuilt(Populate(evs).value[key])
  {
    assert IsLower("");
    RunConsistent(Initial, evs);
  }
}
