/**
 * lib/contrib.js, the older runner: the commands it registers are named with a
 * ` <cmd>` suffix when they group sub-commands (`createCommand`), and a
 * command's steps are filtered by `--step`, `--begin` and `--end`, numbered by
 * their place in the configuration, and run one after another (`doSteps`,
 * `doStep`, `doPrompt`).
 *
 * The step numbers are strings, and the range options are compared with them
 * by the relational operators of JavaScript: two strings compare code unit by
 * code unit, so `'10' < '2'`.
 *
 * The shell, the prompts and the lodash template engine are outside this
 * model: `render` stands for `_.template(exec, promptValues)` and `oracle` for
 * the answers the prompts call back with. The log is kept as the list of
 * what was written (`log.writeln`) and what was reported (`log.error`).
 */
module Legacy {
  import opened Values
  import opened Errors
  import Commands

  type Fields = Commands.Fields

  // ---------------------------------------------------------------------------
  // createCommand (lib/contrib.js:58-61)
  // ---------------------------------------------------------------------------

  /** The name a command is registered under: a config without steps groups sub-commands, shown as `<cmd>`. */
  function CommandName(name: string, config: Fields): string {
    if Truthy(Lookup(config, "steps")) then name else name + " <cmd>"
  }

  /** The registered name starts with the key, and is longer exactly when the config has no steps. */
  lemma CommandNameSuffix(name: string, config: Fields)
    ensures var r := CommandName(name, config);
            && r[..|name|] == name
            && (|r| > |name| <==> !Truthy(Lookup(config, "steps")))
            && (|r| > |name| ==> r[|name|..] == " <cmd>")
  {
    var r := CommandName(name, config);
    if !Truthy(Lookup(config, "steps")) {
      assert r == name + " <cmd>";
      assert r[..|name|] == name;
      assert r[|name|..] == " <cmd>";
    }
  }

  // ---------------------------------------------------------------------------
  // Selecting the steps (lib/contrib.js:85-108)
  // ---------------------------------------------------------------------------

  /** The number of the step at (zero-based) position `n` of the configuration: `n+1+''`. */
  function StepNum(n: nat): string {
    NatToString(n + 1)
  }

  /** ToPrimitive: an object or array compares as its string. */
  function Primitive(v: Value): Value {
    if v.Obj? || v.Arr? then Str(ToString(v)) else v
  }

  /**
   * The relational `a < b` (section 11.8.5 of ECMA-262, 5.1 edition): two
   * strings compare as strings; otherwise both sides become numbers, and NaN
   * makes it false.
   */
  predicate LooseLess(a: Value, b: Value) {
    var pa, pb := Primitive(a), Primitive(b);
    if pa.Str? && pb.Str? then StringLess(pa.s, pb.s)
    else
      match (ToNumber(pa), ToNumber(pb))
      case (Some(x), Some(y)) => x < y
      case _ => false
  }

  /** The three range tests: the step at position `n` stays in the selection. */
  predicate Kept(options: map<string, Value>, n: nat) {
    var num := Str(StepNum(n));
    var step, begin, end := Commands.Get(options, "step"), Commands.Get(options, "begin"), Commands.Get(options, "end");
    && !(Truthy(step) && step != num)
    && !(Truthy(begin) && LooseLess(num, begin))
    && !(Truthy(end) && LooseLess(end, num))
  }

  /** The TypeError strict mode raises when `step.num` is set on a value that cannot hold properties. */
  const NUM_ON_PRIMITIVE: string := "Cannot create property 'num' on a primitive step"

  /** The TypeError raised when the steps are not an array: they have no `forEach`. */
  const NO_FOR_EACH: string := "steps.forEach is not a function"

  /**
   * A kept step as doStep sees it: a string becomes `{exec: step}`; then `num`
   * is set. An array takes the property but has no `exec`, `prompt` or `desc`;
   * any other value cannot hold it.
   */
  function Record(step: Value, n: nat): Result<Fields> {
    var num := Str(StepNum(n));
    match step
    case Str(s) => Ok([("exec", step), ("num", num)])
    case Obj(fields) => Ok(Set(fields, "num", num))
    case Arr(_) => Ok([("num", num)])
    case _ => Err(TypeError(NUM_ON_PRIMITIVE))
  }

  /** The `steps` the forEach over the first `n` configured steps has pushed, or the error it threw. */
  function SelectPrefix(all: seq<Value>, options: map<string, Value>, n: nat): Result<seq<Fields>>
    requires n <= |all|
  {
    if n == 0 then Ok([])
    else
      match SelectPrefix(all, options, n - 1)
      case Err(e) => Err(e)
      case Ok(steps) =>
        if !Kept(options, n - 1) then Ok(steps)
        else
          match Record(all[n - 1], n - 1)
          case Err(e) => Err(e)
          case Ok(r) => Ok(steps + [r])
  }

  /** The selection doSteps makes from the configured steps. */
  function Select(allSteps: Value, options: map<string, Value>): Result<seq<Fields>> {
    if allSteps.Arr? then SelectPrefix(allSteps.items, options, |allSteps.items|)
    else Err(TypeError(NO_FOR_EACH))
  }

  /**
   * Each selected step carries the number of its place in the configuration,
   * not its place in the selection: step `j` of the selection is the kept step
   * at position `idx[j]`, numbered `idx[j] + 1`; the positions increase, and
   * every kept position is selected.
   */
  lemma {:induction false} SelectNumbersByPosition(all: seq<Value>, options: map<string, Value>, n: nat)
    returns (idx: seq<nat>)
    requires n <= |all| && SelectPrefix(all, options, n).Ok?
    ensures var steps := SelectPrefix(all, options, n).value;
            && |idx| == |steps|
            && (forall j :: 0 <= j < |idx| ==>
                  && idx[j] < n && Kept(options, idx[j])
                  && Record(all[idx[j]], idx[j]) == Ok(steps[j])
                  && Lookup(steps[j], "num") == Str(StepNum(idx[j])))
            && (forall j, j' :: 0 <= j < j' < |idx| ==> idx[j] < idx[j'])
            && (forall p :: 0 <= p < n && Kept(options, p) ==> p in idx)
  {
    if n == 0 {
      idx := [];
    } else {
      SelectPrefixNext(all, options, n);
      var prev := SelectNumbersByPosition(all, options, n - 1);
      var steps := SelectPrefix(all, options, n - 1).value;
      var steps' := SelectPrefix(all, options, n).value;
      if Kept(options, n - 1) {
        RecordNum(all[n - 1], n - 1);
        idx := prev + [n - 1];
      } else {
        idx := prev;
      }
      forall j | 0 <= j < |idx|
        ensures && idx[j] < n && Kept(options, idx[j])
                && Record(all[idx[j]], idx[j]) == Ok(steps'[j])
                && Lookup(steps'[j], "num") == Str(StepNum(idx[j]))
      {
        if j < |prev| {
          assert idx[j] == prev[j] && steps'[j] == steps[j];
        }
      }
      forall p | 0 <= p < n && Kept(options, p)
        ensures p in idx
      {
        if p < n - 1 {
          assert p in prev;
        }
      }
    }
  }

  /** The forEach, one configured step further: a kept step's record is pushed. */
  lemma SelectPrefixNext(all: seq<Value>, options: map<string, Value>, n: nat)
    requires 0 < n <= |all| && SelectPrefix(all, options, n).Ok?
    ensures SelectPrefix(all, options, n - 1).Ok?
    ensures Kept(options, n - 1) ==> Record(all[n - 1], n - 1).Ok?
    ensures SelectPrefix(all, options, n).value
         == SelectPrefix(all, options, n - 1).value + (if Kept(options, n - 1) then [Record(all[n - 1], n - 1).value] else [])
  {
    if !Kept(options, n - 1) {
      AppendNothing(SelectPrefix(all, options, n - 1).value);
    }
  }

  /** A record is numbered with its configuration position. */
  lemma RecordNum(step: Value, n: nat)
    requires Record(step, n).Ok?
    ensures Lookup(Record(step, n).value, "num") == Str(StepNum(n))
  {
    if step.Obj? {
      LookupSetSame(step.fields, "num", Str(StepNum(n)));
    }
  }

  /** `--step` given a step's number keeps that step and no other. */
  lemma StepSelectsOne(options: map<string, Value>, m: nat, n: nat)
    requires Commands.Get(options, "step") == Str(StepNum(m))
    requires !Truthy(Commands.Get(options, "begin")) && !Truthy(Commands.Get(options, "end"))
    ensures Kept(options, n) <==> n == m
  {
    if Kept(options, n) {
      NatToStringDigits(n + 1);
      NatToStringDigits(m + 1);
    }
  }

  /** `--step` given without a value is `true`, which is no step's number: nothing is kept. */
  lemma StepWithoutValueKeepsNothing(options: map<string, Value>, n: nat)
    requires Commands.Get(options, "step") == Bool(true)
    ensures !Kept(options, n)
  {
  }

  /** `--begin 2` drops step 10, which it should keep, because `'10' < '2'`; it keeps step 2. */
  lemma BeginTwoDropsTen(options: map<string, Value>)
    requires options == map["begin" := Str("2")]
    ensures Kept(options, 1) && !Kept(options, 9)
  {
    assert StepNum(1) == "2";
    assert StepNum(9) == "10";
    assert StepNum(9)[0] < "2"[0];
  }

  /** Among the first nine steps, string order is numeric order: `--begin b` keeps exactly the steps from b on. */
  lemma SingleDigitBegin(options: map<string, Value>, b: nat, n: nat)
    requires 1 <= b <= 9 && n < 9
    requires options == map["begin" := Str(NatToString(b))]
    ensures Kept(options, n) <==> n + 1 >= b
  {
    SingleDigit(b);
    SingleDigit(n + 1);
    var x, y := ('0' as int + n + 1) as char, ('0' as int + b) as char;
    SingleCharLess(x, y);
    assert Kept(options, n) <==> !StringLess([x], [y]);
  }

  lemma SingleCharLess(x: char, y: char)
    ensures StringLess([x], [y]) <==> x < y
  {
    assert [x][1..] == [];
  }

  /** A number below ten is written as one digit. */
  lemma SingleDigit(d: nat)
    requires d <= 9
    ensures NatToString(d) == [('0' as int + d) as char]
  {
  }

  // ---------------------------------------------------------------------------
  // doStep and doPrompt (lib/contrib.js:137-186)
  // ---------------------------------------------------------------------------

  /** An entry of the log: a line written with `log.writeln`, or a value reported with `log.error`. */
  datatype Entry = Write(text: string) | Report(what: Value)

  /** The questions the prompts ask during a step. */
  datatype Question =
    | Proceed                       // the walk confirmation before an exec
    | Confirm(message: string)      // a prompt given as a string
    | Text(text: Value, info: Value)   // a prompt of type `text`: its message and its details

  /** What a prompt calls back with. */
  datatype Response = Response(err: Value, result: Value)

  /** The answer to the question asked during the step at the given position of the selection. */
  type Oracle = (nat, Question) -> Response

  /** `_.template(exec, promptValues)`. */
  type Render = (Value, Fields) -> string

  /**
   * How a step hands over to the next one: it calls back without an error, it
   * calls back with one, it never calls back, or it throws.
   */
  datatype Next = Continue | Fail(err: Value) | Halt | Throw(error: Error)

  /** What one step does: its log entries, the command it runs, the prompt values after it, and how it hands over. */
  datatype Effect = Effect(entries: seq<Entry>, executed: seq<string>, values: Fields, next: Next)

  const ABORTED: string := "Step aborted"

  /** The TypeError a text prompt raises when it answers with no result at all. */
  const NO_RESULT: string := "Cannot read property 'text' of undefined"

  /** The underlined title line: `'\n' + num + '. '` and the description, if any. */
  function Title(step: Fields): string {
    var desc := Lookup(step, "desc");
    "\n" + ToString(Lookup(step, "num")) + ". " + (if Truthy(desc) then ToString(desc) else "")
  }

  /** `result.text`: undefined and null have no properties to read. */
  function TextOf(result: Value): Result<Value> {
    match result
    case Undef => Err(TypeError(NO_RESULT))
    case Null => Err(TypeError(NO_RESULT))
    case Obj(fields) => Ok(Lookup(fields, "text"))
    case _ => Ok(Undef)
  }

  /** doPrompt on the step at position `i`: what it logs, stores and how it hands over. */
  function PromptEffect(i: nat, info: Value, values: Fields, oracle: Oracle): Effect {
    if info.Str? then
      var r := oracle(i, Confirm(info.s));
      Effect([], [], values, if Truthy(r.err) then Fail(r.err) else Continue)
    else if info.Obj? && Lookup(info.fields, "type") == Str("text") then
      var r := oracle(i, Text(Lookup(info.fields, "message"), info));
      if Truthy(r.err) then Effect([Report(r.err)], [], values, Halt)
      else
        match TextOf(r.result)
        case Err(e) => Effect([], [], values, Throw(e))
        case Ok(text) => Effect([], [], Set(values, ToString(Lookup(info.fields, "id")), text), Continue)
    else Effect([], [], values, Halt)
  }

  /** doStep on the step at position `i` of the selection. */
  function StepEffect(i: nat, step: Fields, options: map<string, Value>, values: Fields,
                      render: Render, oracle: Oracle): Effect {
    var title := Write(Title(step));
    var exec := Lookup(step, "exec");
    var prompt := Lookup(step, "prompt");
    if Truthy(exec) then
      var cmd := render(exec, values);
      var shown := [title, Write("$ " + cmd), Write("")];
      if Truthy(Commands.Get(options, "walk")) && Truthy(oracle(i, Proceed).err) then
        Effect(shown + [Report(Str(ABORTED))], [], values, Halt)
      else
        Effect(shown, if Truthy(Commands.Get(options, "dryrun")) then [] else [cmd], values, Continue)
    else if Truthy(prompt) then
      var e := PromptEffect(i, prompt, values, oracle);
      Effect([title] + e.entries, [], e.values, e.next)
    else Effect([title], [], values, Halt)
  }

  /** An exec step runs its rendered command unless it is a dry run, and goes on, unless the walk confirmation is declined. */
  lemma ExecStep(i: nat, step: Fields, options: map<string, Value>, values: Fields, render: Render, oracle: Oracle)
    requires Truthy(Lookup(step, "exec"))
    ensures var e := StepEffect(i, step, options, values, render, oracle);
            var cmd := render(Lookup(step, "exec"), values);
            var declined := Truthy(Commands.Get(options, "walk")) && Truthy(oracle(i, Proceed).err);
            && e.values == values
            && e.entries[..3] == [Write(Title(step)), Write("$ " + cmd), Write("")]
            && (declined ==> e.next == Halt && e.executed == [] && e.entries[3..] == [Report(Str(ABORTED))])
            && (!declined ==> e.next == Continue && |e.entries| == 3
                              && e.executed == (if Truthy(Commands.Get(options, "dryrun")) then [] else [cmd]))
  {
  }

  /**
   * A text prompt answered without an error stores the answer's `text` under
   * the prompt's id, leaves every other prompt value as it was, and goes on.
   */
  lemma TextPromptStores(i: nat, info: Value, values: Fields, oracle: Oracle, key: string)
    requires info.Obj? && Lookup(info.fields, "type") == Str("text")
    requires !Truthy(oracle(i, Text(Lookup(info.fields, "message"), info)).err)
    requires TextOf(oracle(i, Text(Lookup(info.fields, "message"), info)).result).Ok?
    ensures var e := PromptEffect(i, info, values, oracle);
            var id := ToString(Lookup(info.fields, "id"));
            && e.next == Continue
            && Lookup(e.values, id) == TextOf(oracle(i, Text(Lookup(info.fields, "message"), info)).result).value
            && (key != id ==> Lookup(e.values, key) == Lookup(values, key))
  {
    var id := ToString(Lookup(info.fields, "id"));
    var text := TextOf(oracle(i, Text(Lookup(info.fields, "message"), info)).result).value;
    LookupSetSame(values, id, text);
    if key != id {
      LookupSetOther(values, id, text, key);
    }
  }

  /** A prompt that is neither a string nor a text prompt, and a step with no exec and no prompt, never call back. */
  lemma SilentSteps(i: nat, step: Fields, options: map<string, Value>, values: Fields, render: Render, oracle: Oracle)
    requires !Truthy(Lookup(step, "exec"))
    requires var p := Lookup(step, "prompt");
             !p.Str? && !(p.Obj? && Lookup(p.fields, "type") == Str("text"))
    ensures var e := StepEffect(i, step, options, values, render, oracle);
            e == Effect([Write(Title(step))], [], values, Halt)
  {
  }

  /** Only an exec step runs a command, and only a text prompt changes the prompt values. */
  lemma StepEffectFrame(i: nat, step: Fields, options: map<string, Value>, values: Fields, render: Render, oracle: Oracle)
    ensures var e := StepEffect(i, step, options, values, render, oracle);
            && |e.executed| <= 1
            && (e.executed != [] ==> Truthy(Lookup(step, "exec")) && !Truthy(Commands.Get(options, "dryrun")))
            && (e.values != values ==> !Truthy(Lookup(step, "exec")) && Lookup(Lookup(step, "prompt").fields, "type") == Str("text"))
            && (e.next.Fail? ==> Lookup(step, "prompt").Str? && Truthy(e.next.err))
  {
  }

  // ---------------------------------------------------------------------------
  // The chain of steps (lib/contrib.js:110-134)
  // ---------------------------------------------------------------------------

  /** What the runner has done so far: the log, the commands run, and the prompt values. */
  datatype Journal = Journal(log: seq<Entry>, executed: seq<string>, values: Fields)

  /** How doSteps ends. `at` is the position in the selection of the step that ended it. */
  datatype Outcome =
    | Over                                 // every step called back without an error
    | FailedOn(at: nat, num: Value, err: Value) // a step called back with an error
    | Stopped(at: nat)                     // a step never called back
    | Crashed(at: nat, error: Error)       // a step threw
    | NoSteps                              // the selection was empty
    | Rejected(error: Error)               // the selection threw

  const NO_STEPS: string := "There are no steps in the selected range"
  const OVER: string := "IT'S OVER!"

  /** How a step is handled given its position and the prompt values at that moment. */
  type Handler = (nat, Fields, Fields) -> Effect

  /** doStep with the given options and collaborators, as a handler. */
  function StepHandler(options: map<string, Value>, render: Render, oracle: Oracle): Handler {
    (i: nat, values: Fields, step: Fields) => StepEffect(i, step, options, values, render, oracle)
  }

  /** The journal after a step's effect. */
  function Apply(j: Journal, e: Effect): Journal {
    Journal(j.log + e.entries, j.executed + e.executed, e.values)
  }

  /** The lines `nextStep`'s callback adds as a step hands over (after the step's own). */
  function Closing(step: Fields, next: Next, last: bool): seq<Entry> {
    match next
    case Fail(err) => [Report(err), Report(Str("FAILED ON STEP #" + ToString(Lookup(step, "num"))))]
    case Continue => if last then [Write(""), Write(OVER)] else []
    case _ => []
  }

  /** nextStep from position `i` of the selection on. */
  function RunFrom(steps: seq<Fields>, i: nat, j: Journal, handle: Handler): (Journal, Outcome)
    requires i < |steps|
    decreases |steps| - i
  {
    var e := handle(i, j.values, steps[i]);
    var last := i == |steps| - 1;
    var j' := Apply(j, e);
    var closed := Journal(j'.log + Closing(steps[i], e.next, last), j'.executed, j'.values);
    match e.next
    case Continue => if last then (closed, Over) else RunFrom(steps, i + 1, j', handle)
    case Fail(err) => (closed, FailedOn(i, Lookup(steps[i], "num"), err))
    case Halt => (closed, Stopped(i))
    case Throw(error) => (closed, Crashed(i, error))
  }

  /** One hand-over: what the run from `i` is, given the effect of step `i`. */
  lemma RunFromHandled(steps: seq<Fields>, i: nat, j: Journal, handle: Handler, e: Effect)
    requires i < |steps| && e == handle(i, j.values, steps[i])
    ensures e.next == Continue && i < |steps| - 1 ==> RunFrom(steps, i, j, handle) == RunFrom(steps, i + 1, Apply(j, e), handle)
    ensures e.next == Continue && i == |steps| - 1 ==>
              RunFrom(steps, i, j, handle) == (Journal(Apply(j, e).log + [Write(""), Write(OVER)], Apply(j, e).executed, e.values), Over)
    ensures e.next.Fail? ==>
              RunFrom(steps, i, j, handle)
              == (Journal(Apply(j, e).log + [Report(e.next.err), Report(Str("FAILED ON STEP #" + ToString(Lookup(steps[i], "num"))))],
                          Apply(j, e).executed, e.values),
                  FailedOn(i, Lookup(steps[i], "num"), e.next.err))
    ensures e.next == Halt ==> RunFrom(steps, i, j, handle) == (Apply(j, e), Stopped(i))
    ensures e.next.Throw? ==> RunFrom(steps, i, j, handle) == (Apply(j, e), Crashed(i, e.next.error))
  {
    var j' := Apply(j, e);
    if e.next == Halt || e.next.Throw? {
      assert j'.log + [] == j'.log;
    }
  }

  /** doSteps: select, then run the selection. */
  function Run(allSteps: Value, options: map<string, Value>, j: Journal, handle: Handler): (Journal, Outcome) {
    match Select(allSteps, options)
    case Err(e) => (j, Rejected(e))
    case Ok(steps) =>
      if steps == [] then (Journal(j.log + [Report(Str(NO_STEPS))], j.executed, j.values), NoSteps)
      else RunFrom(steps, 0, j, handle)
  }

  /** The journal when step `k` starts, if every step before it called back without an error. */
  function JournalBefore(steps: seq<Fields>, j: Journal, handle: Handler, k: nat): Journal
    requires k <= |steps|
    decreases k
  {
    if k == 0 then j
    else
      var prev := JournalBefore(steps, j, handle, k - 1);
      Apply(prev, handle(k - 1, prev.values, steps[k - 1]))
  }

  /** How step `k` hands over, if every step before it called back without an error. */
  function NextAt(steps: seq<Fields>, j: Journal, handle: Handler, k: nat): Next
    requires k < |steps|
  {
    handle(k, JournalBefore(steps, j, handle, k).values, steps[k]).next
  }

  /** The position of the step that ended a run; the length of the selection when it ran to the end. */
  function EndedAt(o: Outcome, n: nat): nat {
    match o
    case FailedOn(at, _, _) => at
    case Stopped(at) => at
    case Crashed(at, _) => at
    case _ => n
  }

  /**
   * The run from `i` goes through the steps strictly in order and stops at the
   * first that does not call back cleanly: every step before the one that
   * ended it continued, and that step's hand-over is the outcome.
   */
  lemma {:induction false} RunFromEnds(steps: seq<Fields>, j: Journal, handle: Handler, i: nat)
    requires i < |steps|
    requires forall k :: 0 <= k < i ==> NextAt(steps, j, handle, k) == Continue
    ensures var o := RunFrom(steps, i, JournalBefore(steps, j, handle, i), handle).1;
            var at := EndedAt(o, |steps|);
            && i <= at <= |steps|
            && (forall k :: 0 <= k < at ==> NextAt(steps, j, handle, k) == Continue)
            && (o == Over <==> at == |steps|)
            && (o.FailedOn? ==> NextAt(steps, j, handle, at) == Fail(o.err) && o.num == Lookup(steps[at], "num"))
            && (o.Stopped? ==> NextAt(steps, j, handle, at) == Halt)
            && (o.Crashed? ==> NextAt(steps, j, handle, at) == Throw(o.error))
            && !o.NoSteps? && !o.Rejected?
    decreases |steps| - i
  {
    var here := JournalBefore(steps, j, handle, i);
    var e := handle(i, here.values, steps[i]);
    RunFromHandled(steps, i, here, handle, e);
    if e.next == Continue && i < |steps| - 1 {
      assert JournalBefore(steps, j, handle, i + 1) == Apply(here, e);
      RunFromEnds(steps, j, handle, i + 1);
    }
  }

  /**
   * What the run from `i` leaves in the journal: what the steps up to the one
   * that ended it did, then the closing lines of the chain.
   */
  lemma {:induction false} RunFromJournal(steps: seq<Fields>, j: Journal, handle: Handler, i: nat)
    requires i < |steps|
    ensures var (t, o) := RunFrom(steps, i, JournalBefore(steps, j, handle, i), handle);
            var at := EndedAt(o, |steps|);
            && (o == Over ==>
                  var done := JournalBefore(steps, j, handle, |steps|);
                  t == Journal(done.log + [Write(""), Write(OVER)], done.executed, done.values))
            && (o.FailedOn? ==>
                  && at < |steps|
                  && var done := JournalBefore(steps, j, handle, at + 1);
                     t == Journal(done.log + [Report(o.err), Report(Str("FAILED ON STEP #" + ToString(o.num)))],
                                  done.executed, done.values))
            && (o.Stopped? || o.Crashed? ==> at < |steps| && t == JournalBefore(steps, j, handle, at + 1))
    decreases |steps| - i
  {
    var here := JournalBefore(steps, j, handle, i);
    var e := handle(i, here.values, steps[i]);
    assert JournalBefore(steps, j, handle, i + 1) == Apply(here, e);
    RunFromHandled(steps, i, here, handle, e);
    if e.next == Continue && i < |steps| - 1 {
      RunFromJournal(steps, j, handle, i + 1);
    }
  }

  /** Under a dry run, no step runs a command. */
  lemma {:induction false} DryRunBefore(steps: seq<Fields>, j: Journal, options: map<string, Value>,
                                        render: Render, oracle: Oracle, k: nat)
    requires k <= |steps| && Truthy(Commands.Get(options, "dryrun"))
    ensures JournalBefore(steps, j, StepHandler(options, render, oracle), k).executed == j.executed
    decreases k
  {
    if k > 0 {
      var handle := StepHandler(options, render, oracle);
      var prev := JournalBefore(steps, j, handle, k - 1);
      DryRunBefore(steps, j, options, render, oracle, k - 1);
      StepEffectFrame(k - 1, steps[k - 1], options, prev.values, render, oracle);
    }
  }

  /** A dry run logs the steps but runs no command at all. */
  lemma DryRunExecutesNothing(allSteps: Value, options: map<string, Value>, j: Journal, render: Render, oracle: Oracle)
    requires Truthy(Commands.Get(options, "dryrun"))
    ensures Run(allSteps, options, j, StepHandler(options, render, oracle)).0.executed == j.executed
  {
    var handle := StepHandler(options, render, oracle);
    if Select(allSteps, options).Ok? {
      var steps := Select(allSteps, options).value;
      if steps != [] {
        RunFromEnds(steps, j, handle, 0);
        RunFromJournal(steps, j, handle, 0);
        var o := RunFrom(steps, 0, j, handle).1;
        DryRunBefore(steps, j, options, render, oracle, if o == Over then |steps| else EndedAt(o, |steps|) + 1);
      }
    }
  }

  /** An empty selection is reported, and nothing runs. */
  lemma EmptySelection(allSteps: Value, options: map<string, Value>, j: Journal, handle: Handler)
    requires Select(allSteps, options) == Ok([])
    ensures Run(allSteps, options, j, handle) == (Journal(j.log + [Report(Str(NO_STEPS))], j.executed, j.values), NoSteps)
  {
  }

  /**
   * A run over a non-empty selection ends at the first step that does not call
   * back cleanly, reporting `FAILED ON STEP #num` with that step's number when it
   * called back with an error; it is over, with `IT'S OVER!` logged last,
   * exactly when every step called back cleanly.
   */
  lemma RunEnds(allSteps: Value, options: map<string, Value>, j: Journal, handle: Handler)
    requires Select(allSteps, options).Ok? && Select(allSteps, options).value != []
    ensures var steps := Select(allSteps, options).value;
            var (t, o) := Run(allSteps, options, j, handle);
            var at := EndedAt(o, |steps|);
            && at <= |steps|
            && (forall k :: 0 <= k < at ==> NextAt(steps, j, handle, k) == Continue)
            && (o == Over <==> forall k :: 0 <= k < |steps| ==> NextAt(steps, j, handle, k) == Continue)
            && (o == Over ==> t.log == JournalBefore(steps, j, handle, |steps|).log + [Write(""), Write(OVER)])
            && (o.FailedOn? ==>
                  && NextAt(steps, j, handle, at) == Fail(o.err)
                  && t.log == JournalBefore(steps, j, handle, at + 1).log
                              + [Report(o.err), Report(Str("FAILED ON STEP #" + ToString(Lookup(steps[at], "num"))))])
  {
    var steps := Select(allSteps, options).value;
    RunFromEnds(steps, j, handle, 0);
    RunFromJournal(steps, j, handle, 0);
    var o := RunFrom(steps, 0, j, handle).1;
    if o != Over {
      assert NextAt(steps, j, handle, EndedAt(o, |steps|)) != Continue;
    }
  }

  // ---------------------------------------------------------------------------
  // The runner, as the source runs it
  // ---------------------------------------------------------------------------

  /** The module state of lib/contrib.js that doSteps reads and writes, with the log and the shell it drives. */
  class Runner {
    /** The module-level `promptValues`: text prompt answers, by id, kept across runs. */
    var promptValues: Fields
    /** What was logged. */
    var log: seq<Entry>
    /** The commands handed to `shell.exec`. */
    var executed: seq<string>

    constructor()
      ensures promptValues == [] && log == [] && executed == []
    {
      promptValues, log, executed := [], [], [];
    }

    /** The state as a journal. */
    function State(): Journal
      reads this
    {
      Journal(log, executed, promptValues)
    }

    /** doPrompt (lib/contrib.js:175-186). */
    method DoPrompt(i: nat, info: Value, oracle: Oracle) returns (next: Next)
      modifies this
      ensures var e := PromptEffect(i, info, old(promptValues), oracle);
              next == e.next && State() == Apply(old(State()), e)
    {
      if info.Str? {
        var r := oracle(i, Confirm(info.s));
        next := if Truthy(r.err) then Fail(r.err) else Continue;
      } else if info.Obj? && Lookup(info.fields, "type") == Str("text") {
        var r := oracle(i, Text(Lookup(info.fields, "message"), info));
        if Truthy(r.err) {
          log := log + [Report(r.err)];
          return Halt;
        }
        var text := TextOf(r.result);
        if text.Err? {
          return Throw(text.error);
        }
        promptValues := Set(promptValues, ToString(Lookup(info.fields, "id")), text.value);
        next := Continue;
      } else {
        next := Halt;
      }
    }

    /** doStep (lib/contrib.js:137-173), with confirmStep inlined. */
    method DoStep(i: nat, step: Fields, options: map<string, Value>, render: Render, oracle: Oracle) returns (next: Next)
      modifies this
      ensures var e := StepEffect(i, step, options, old(promptValues), render, oracle);
              next == e.next && State() == Apply(old(State()), e)
    {
      log := log + [Write(Title(step))];
      var exec := Lookup(step, "exec");
      var prompt := Lookup(step, "prompt");
      if Truthy(exec) {
        var cmd := render(exec, promptValues);
        log := log + [Write("$ " + cmd), Write("")];
        if Truthy(Commands.Get(options, "walk")) {
          var r := oracle(i, Proceed);
          if Truthy(r.err) {
            log := log + [Report(Str(ABORTED))];
            return Halt;
          }
        }
        if !Truthy(Commands.Get(options, "dryrun")) {
          executed := executed + [cmd];
        }
        next := Continue;
      } else if Truthy(prompt) {
        next := DoPrompt(i, prompt, oracle);
      } else {
        next := Halt;
      }
    }

    /** The forEach of doSteps (lib/contrib.js:88-108): the kept steps, numbered, or the error it throws. */
    static method SelectSteps(allSteps: Value, options: map<string, Value>) returns (r: Result<seq<Fields>>)
      ensures r == Select(allSteps, options)
    {
      if !allSteps.Arr? {
        return Err(TypeError(NO_FOR_EACH));
      }
      var all := allSteps.items;
      var steps: seq<Fields> := [];
      for n := 0 to |all|
        invariant SelectPrefix(all, options, n) == Ok(steps)
      {
        if Kept(options, n) {
          var record := Record(all[n], n);
          if record.Err? {
            RejectedStays(all, options, n + 1);
            return Err(record.error);
          }
          steps := steps + [record.value];
        }
      }
      r := Ok(steps);
    }

    /** doSteps (lib/contrib.js:85-135): select the steps, then the nextStep chain. */
    method DoSteps(allSteps: Value, options: map<string, Value>, render: Render, oracle: Oracle) returns (outcome: Outcome)
      modifies this
      ensures (State(), outcome) == Run(allSteps, options, old(State()), StepHandler(options, render, oracle))
    {
      var selected := SelectSteps(allSteps, options);
      if selected.Err? {
        return Rejected(selected.error);
      }
      var steps := selected.value;
      if |steps| == 0 {
        log := log + [Report(Str(NO_STEPS))];
        return NoSteps;
      }
      ghost var handle := StepHandler(options, render, oracle);
      ghost var start := State();
      var i := 0;
      while true
        invariant 0 <= i < |steps|
        invariant RunFrom(steps, 0, start, handle) == RunFrom(steps, i, State(), handle)
        decreases |steps| - i
      {
        ghost var before := State();
        var next := DoStep(i, steps[i], options, render, oracle);
        RunFromHandled(steps, i, before, handle, handle(i, before.values, steps[i]));
        match next {
          case Fail(err) =>
            log := log + [Report(err), Report(Str("FAILED ON STEP #" + ToString(Lookup(steps[i], "num"))))];
            return FailedOn(i, Lookup(steps[i], "num"), err);
          case Halt =>
            return Stopped(i);
          case Throw(error) =>
            return Crashed(i, error);
          case Continue =>
            if i + 1 < |steps| {
              i := i + 1;
            } else {
              log := log + [Write(""), Write(OVER)];
              return Over;
            }
        }
      }
    }
  }

  /** Once the forEach has thrown, the selection stays an error. */
  lemma {:induction false} RejectedStays(all: seq<Value>, options: map<string, Value>, n: nat)
    requires 0 < n <= |all| && SelectPrefix(all, options, n - 1).Ok? && Kept(options, n - 1) && Record(all[n - 1], n - 1).Err?
    ensures SelectPrefix(all, options, |all|) == Err(Record(all[n - 1], n - 1).error)
    decreases |all| - n
  {
    if n < |all| {
      RejectedStaysAfter(all, options, n, |all|);
    }
  }

  lemma {:induction false} RejectedStaysAfter(all: seq<Value>, options: map<string, Value>, n: nat, m: nat)
    requires 0 < n <= m <= |all| && SelectPrefix(all, options, n - 1).Ok? && Kept(options, n - 1) && Record(all[n - 1], n - 1).Err?
    ensures SelectPrefix(all, options, m) == Err(Record(all[n - 1], n - 1).error)
    decreases m
  {
    if m > n {
      RejectedStaysAfter(all, options, n, m - 1);
    }
  }
}
