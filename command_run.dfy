/**
 * lib/command.js, the running half: selecting the range of steps to run
 * (`getStepSubset`), running the selected steps one after another (`execute`,
 * `doSteps`, `doNextStep`) and the optional confirmation before a step
 * (`confirmStep`).
 *
 * The actions a step asks for (a shell command, a prompt, opening a browser,
 * an HTTP request) are carried out by collaborators outside this model. The
 * parameter `respond` stands for all of them: given the position of the step
 * in the run, the data of the command and what was dispatched, it is the error
 * and the result the collaborator calls back with (exactly once). The run is strictly sequential: each step is
 * dispatched from the callback of the one before.
 */
module CommandRun {
  import opened Values
  import opened Errors
  import opened Commands

  // ---------------------------------------------------------------------------
  // getStepSubset (lib/command.js:204-224)
  // ---------------------------------------------------------------------------

  /** `options[key] - 1` when that option is set (truthy), `otherwise` when it is not. */
  function OptionIndex(options: map<string, Value>, key: string, otherwise: Option<int>): Option<int> {
    var v := Get(options, key);
    if Truthy(v) then Minus1(ToNumber(v)) else otherwise
  }

  /**
   * The steps `--begin`, `--end` and `--step` select: `steps.slice(begin, end)`
   * with the one-based options made zero-based; `--step` sets both ends.
   */
  function GetStepSubset(steps: seq<Step>, options: map<string, Value>): seq<Step> {
    var stepSet := Truthy(Get(options, "step"));
    var begin := if stepSet then OptionIndex(options, "step", None) else OptionIndex(options, "begin", Some(0));
    var end := if stepSet then OptionIndex(options, "step", None) else OptionIndex(options, "end", Some(|steps|));
    Slice(steps, ToInteger(begin), ToInteger(end))
  }

  /** Whatever the options, the subset is one contiguous run of the steps, in their order. */
  lemma SubsetIsRun(steps: seq<Step>, options: map<string, Value>) returns (lo: nat, hi: nat)
    ensures lo <= hi <= |steps| && GetStepSubset(steps, options) == steps[lo..hi]
  {
    var r := GetStepSubset(steps, options);
    if r == [] {
      lo, hi := 0, 0;
    } else {
      var stepSet := Truthy(Get(options, "step"));
      var begin := if stepSet then OptionIndex(options, "step", None) else OptionIndex(options, "begin", Some(0));
      var end := if stepSet then OptionIndex(options, "step", None) else OptionIndex(options, "end", Some(|steps|));
      lo, hi := RelativeIndex(ToInteger(begin), |steps|), RelativeIndex(ToInteger(end), |steps|);
    }
  }

  /** `--step` sets begin and end to the same index, so it always selects nothing. */
  lemma SubsetWithStepIsEmpty(steps: seq<Step>, options: map<string, Value>)
    requires Truthy(Get(options, "step"))
    ensures GetStepSubset(steps, options) == []
  {
  }

  /** With no range option set (a falsy value such as 0 counts as unset), every step runs. */
  lemma SubsetDefault(steps: seq<Step>, options: map<string, Value>)
    requires !Truthy(Get(options, "begin")) && !Truthy(Get(options, "end")) && !Truthy(Get(options, "step"))
    ensures GetStepSubset(steps, options) == steps
  {
    if steps != [] {
      assert steps[0..|steps|] == steps;
    }
  }

  /**
   * On numbered steps, `--begin b --end e` selects exactly the steps whose
   * `num` satisfies b <= num < e: the step named by `--end` is not run.
   */
  lemma SubsetRange(steps: seq<Step>, options: map<string, Value>, b: int, e: int)
    requires forall k :: 0 <= k < |steps| ==> Lookup(steps[k], "num") == Num(k + 1)
    requires !Truthy(Get(options, "step"))
    requires Truthy(Get(options, "begin")) && ToNumber(Get(options, "begin")) == Some(b) && b >= 1
    requires Truthy(Get(options, "end")) && ToNumber(Get(options, "end")) == Some(e) && e >= 1
    ensures var r := GetStepSubset(steps, options);
            && (forall j :: 0 <= j < |r| ==> r[j] == steps[b - 1 + j] && Lookup(r[j], "num") == Num(b + j) && b + j < e)
            && (forall k :: 0 <= k < |steps| && b <= k + 1 < e ==> 0 <= k - b + 1 < |r| && r[k - b + 1] == steps[k])
  {
  }

  /** A set `--begin` of "0" is truthy but becomes index -1, which slice counts from the end: only the last step runs. */
  lemma SubsetBeginZeroString(steps: seq<Step>, options: map<string, Value>)
    requires |steps| >= 1
    requires Get(options, "begin") == Str("0")
    requires !Truthy(Get(options, "end")) && !Truthy(Get(options, "step"))
    ensures GetStepSubset(steps, options) == [steps[|steps| - 1]]
  {
    assert StringToNumber("0") == Some(0) by {
      assert IsDigits("0");
    }
  }

  // ---------------------------------------------------------------------------
  // doNextStep (lib/command.js:274-335)
  // ---------------------------------------------------------------------------

  /** The collaborator a step goes to, in the order doNextStep tests for them. */
  datatype Action = RunExec | RunConfirm | RunPrompt | RunOpen | RunGet | NoAction

  /** What doNextStep hands over: the action and the step record as the collaborator sees it. */
  datatype Dispatch = Dispatch(action: Action, step: Step)

  /** What a collaborator calls back with: `callback(err, result)`. */
  datatype Reply = Reply(err: Value, result: Value)

  const NO_ACTION: string := "No action defined for this step"
  const OVER: string := "\n\nIT'S OVER!"

  /** A string `prompt`, then a string `confirm`, becomes the description when the step has none. */
  function Prepare(step: Step): Step {
    var withPrompt :=
      if Lookup(step, "prompt").Str? && !Truthy(Lookup(step, "desc")) then Set(step, "desc", Lookup(step, "prompt"))
      else step;
    if Lookup(withPrompt, "confirm").Str? && !Truthy(Lookup(withPrompt, "desc")) then Set(withPrompt, "desc", Lookup(withPrompt, "confirm"))
    else withPrompt
  }

  /** Preparing a step only ever writes `desc`, and never over a truthy one. */
  lemma PrepareOnlyDescribes(step: Step, key: string)
    ensures key != "desc" ==> Lookup(Prepare(step), key) == Lookup(step, key)
    ensures Truthy(Lookup(step, "desc")) ==> Prepare(step) == step
    ensures !Truthy(Lookup(step, "desc")) && Lookup(step, "prompt").Str? && Lookup(step, "prompt") != Str("") ==>
              Lookup(Prepare(step), "desc") == Lookup(step, "prompt")
    ensures !Truthy(Lookup(step, "desc")) && !Lookup(step, "prompt").Str? && Lookup(step, "confirm").Str? ==>
              Lookup(Prepare(step), "desc") == Lookup(step, "confirm")
  {
    var withPrompt :=
      if Lookup(step, "prompt").Str? && !Truthy(Lookup(step, "desc")) then Set(step, "desc", Lookup(step, "prompt"))
      else step;
    if Lookup(step, "prompt").Str? && !Truthy(Lookup(step, "desc")) {
      LookupSetSame(step, "desc", Lookup(step, "prompt"));
      LookupSetOther(step, "desc", Lookup(step, "prompt"), "confirm");
      if key != "desc" {
        LookupSetOther(step, "desc", Lookup(step, "prompt"), key);
      }
    }
    if Lookup(withPrompt, "confirm").Str? && !Truthy(Lookup(withPrompt, "desc")) {
      LookupSetSame(withPrompt, "desc", Lookup(withPrompt, "confirm"));
      if key != "desc" {
        LookupSetOther(withPrompt, "desc", Lookup(withPrompt, "confirm"), key);
      }
    }
  }

  /** The collaborator for a step: the first of exec, confirm, prompt, open, get that is truthy. */
  function ActionOf(step: Step): Action {
    if Truthy(Lookup(step, "exec")) then RunExec
    else if Truthy(Lookup(step, "confirm")) then RunConfirm
    else if Truthy(Lookup(step, "prompt")) then RunPrompt
    else if Truthy(Lookup(step, "open")) then RunOpen
    else if Truthy(Lookup(step, "get")) then RunGet
    else NoAction
  }

  /** A confirm step is asked as a prompt of type `confirm` whose message is the confirm text. */
  function DispatchOf(step: Step): Dispatch {
    var action := ActionOf(step);
    if action == RunConfirm then
      Dispatch(action, Set(step, "prompt", Obj([("type", Str("confirm")), ("message", Lookup(step, "confirm"))])))
    else Dispatch(action, step)
  }

  /** exec wins over everything, and a step with none of the five keys has no action. */
  lemma DispatchPriority(step: Step)
    ensures ActionOf(step) == RunExec <==> Truthy(Lookup(step, "exec"))
    ensures ActionOf(step) == RunConfirm <==> !Truthy(Lookup(step, "exec")) && Truthy(Lookup(step, "confirm"))
    ensures ActionOf(step) == RunPrompt <==>
      !Truthy(Lookup(step, "exec")) && !Truthy(Lookup(step, "confirm")) && Truthy(Lookup(step, "prompt"))
    ensures ActionOf(step) == NoAction <==>
      && !Truthy(Lookup(step, "exec")) && !Truthy(Lookup(step, "confirm")) && !Truthy(Lookup(step, "prompt"))
      && !Truthy(Lookup(step, "open")) && !Truthy(Lookup(step, "get"))
    ensures var d := DispatchOf(step);
      d.action == RunConfirm ==>
        Lookup(d.step, "prompt") == Obj([("type", Str("confirm")), ("message", Lookup(step, "confirm"))])
        && Lookup(d.step, "confirm") == Lookup(step, "confirm")
  {
    if ActionOf(step) == RunConfirm {
      var p := Obj([("type", Str("confirm")), ("message", Lookup(step, "confirm"))]);
      LookupSetSame(step, "prompt", p);
      LookupSetOther(step, "prompt", p, "confirm");
    }
  }

  /**
   * The title line compiles `desc || ''` as a template: a truthy description
   * that is not a string makes Handlebars throw before the step is dispatched.
   */
  function TitleError(step: Step): Option<Error> {
    var desc := Lookup(step, "desc");
    if Truthy(desc) && !desc.Str? then
      Some(TemplateError("You must pass a string or Handlebars AST to Handlebars.compile. You passed " + ToString(desc)))
    else None
  }


  /**
   * The collaborators: given the position of the step in the run, the data the
   * step's command holds when it is dispatched, and what was dispatched, the
   * error and the result they call back with.
   */
  type Responder = (nat, Fields, Dispatch) -> Reply

  /** The collaborator's reply, or the error doNextStep calls back with itself when there is no action. */
  function Answer(respond: Responder, position: nat, data: Fields, d: Dispatch): (r: Reply)
    ensures d.action == NoAction ==> r == Reply(Str(NO_ACTION), Undef)
    ensures d.action != NoAction ==> r == respond(position, data, d)
  {
    if d.action == NoAction then Reply(Str(NO_ACTION), Undef) else respond(position, data, d)
  }

  /** A step without an action always fails with the source's message, whatever the collaborators would say. */
  lemma NoActionFails(respond: Responder, position: nat, data: Fields, step: Step)
    requires ActionOf(step) == NoAction
    ensures Answer(respond, position, data, DispatchOf(step)) == Reply(Str(NO_ACTION), Undef)
    ensures Truthy(Answer(respond, position, data, DispatchOf(step)).err)
  {
  }

  /** What doNextStep does with one step: the title throws, or the step is dispatched and its collaborator replies. */
  datatype Handling = Threw(error: Error) | Handed(d: Dispatch, reply: Reply)

  /** doNextStep on `step` at `position`: prepare it, compile its title, dispatch it. */
  function Handle(respond: Responder, position: nat, data: Fields, step: Step): Handling {
    var prepared := Prepare(step);
    match TitleError(prepared)
    case Some(e) => Threw(e)
    case None =>
      var d := DispatchOf(prepared);
      Handed(d, Answer(respond, position, data, d))
  }

  /** The step record doNextStep leaves in the subset: as dispatched, or only prepared when its title threw. */
  function LeftBehind(step: Step, h: Handling): Step {
    if h.Handed? then h.d.step else Prepare(step)
  }

  // ---------------------------------------------------------------------------
  // doSteps and stepComplete (lib/command.js:248-270)
  // ---------------------------------------------------------------------------

  /** The line logged when a step fails, telling how to resume from it. */
  function FailureReport(full: string, num: Value): string {
    "FAILED ON STEP " + ToString(num) + ". Fix any issues and then run \"contrib " + full + " --begin " + ToString(num) + "\" to continue."
  }

  /** `command.data[step.id] = result` when the step has a truthy id. */
  function Store(data: Fields, step: Step, result: Value): Fields {
    var id := Lookup(step, "id");
    if Truthy(id) then Set(data, ToString(id), result) else data
  }

  /** A step with an id leaves its result under that id; every other entry of the data stays as it was. */
  lemma StoreReads(data: Fields, step: Step, result: Value, key: string)
    ensures Truthy(Lookup(step, "id")) ==> Lookup(Store(data, step, result), ToString(Lookup(step, "id"))) == result
    ensures !Truthy(Lookup(step, "id")) ==> Store(data, step, result) == data
    ensures key != ToString(Lookup(step, "id")) ==> Lookup(Store(data, step, result), key) == Lookup(data, key)
  {
    var id := Lookup(step, "id");
    if Truthy(id) {
      LookupSetSame(data, ToString(id), result);
      if key != ToString(id) {
        LookupSetOther(data, ToString(id), result, key);
      }
    }
  }

  /** How a run ends: the final callback's success message, its error, or an exception thrown out of the run. */
  datatype Outcome =
    | Completed(message: string)
    | Failed(num: Value, err: Value, report: string)
    | Crashed(error: Error)

  /** What a run produces: how it ended, the data, and what was dispatched (each step record as doNextStep left it). */
  datatype Trace = Trace(outcome: Outcome, data: Fields, calls: seq<Dispatch>)

  /**
   * How one step is handled, given the position and the data at that moment.
   * The sequencing below is stated for any handler; the run of the source is
   * the one that handles each step as doNextStep does (Handler).
   */
  type Handler = (nat, Fields, Step) -> Handling

  /** doNextStep with the given collaborators, as a handler. */
  function NextStepHandler(respond: Responder): Handler {
    (position: nat, data: Fields, step: Step) => Handle(respond, position, data, step)
  }

  /**
   * stepComplete, from position `i` of the subset on, `calls` having been
   * dispatched before: a failure reports the step's `num` and ends the run, a
   * success stores the result under the step's id and dispatches the next step
   * or, after the last one, calls back with the final message.
   */
  function RunFrom(full: string, subset: seq<Step>, i: nat, data: Fields, calls: seq<Dispatch>, handle: Handler): Trace
    requires i < |subset|
    decreases |subset| - i
  {
    match handle(i, data, subset[i])
    case Threw(e) => Trace(Crashed(e), data, calls)
    case Handed(d, reply) =>
      if Truthy(reply.err) then
        var num := Lookup(d.step, "num");
        Trace(Failed(num, reply.err, FailureReport(full, num)), data, calls + [d])
      else if i < |subset| - 1 then RunFrom(full, subset, i + 1, Store(data, d.step, reply.result), calls + [d], handle)
      else Trace(Completed(OVER), Store(data, d.step, reply.result), calls + [d])
  }

  /** The message of the TypeError an empty subset raises: the first doNextStep reads `undefined.prompt`. */
  const EMPTY_SUBSET: string := "Cannot read property 'prompt' of undefined"

  /** One stepComplete: what the run from `i` is, given how step `i` was handled. */
  lemma RunFromHandled(full: string, subset: seq<Step>, i: nat, data: Fields, calls: seq<Dispatch>, handle: Handler, h: Handling)
    requires i < |subset| && h == handle(i, data, subset[i])
    ensures h.Threw? ==> RunFrom(full, subset, i, data, calls, handle) == Trace(Crashed(h.error), data, calls)
    ensures h.Handed? && Truthy(h.reply.err) ==>
              var num := Lookup(h.d.step, "num");
              RunFrom(full, subset, i, data, calls, handle)
              == Trace(Failed(num, h.reply.err, FailureReport(full, num)), data, calls + [h.d])
    ensures h.Handed? && !Truthy(h.reply.err) && i < |subset| - 1 ==>
              RunFrom(full, subset, i, data, calls, handle)
              == RunFrom(full, subset, i + 1, Store(data, h.d.step, h.reply.result), calls + [h.d], handle)
    ensures h.Handed? && !Truthy(h.reply.err) && i == |subset| - 1 ==>
              RunFrom(full, subset, i, data, calls, handle)
              == Trace(Completed(OVER), Store(data, h.d.step, h.reply.result), calls + [h.d])
  {
  }

  /** The whole run. */
  function Run(full: string, subset: seq<Step>, data: Fields, handle: Handler): Trace {
    if subset == [] then Trace(Crashed(TypeError(EMPTY_SUBSET)), data, [])
    else RunFrom(full, subset, 0, data, [], handle)
  }

  // ---------------------------------------------------------------------------
  // What a run does, stated step by step
  // ---------------------------------------------------------------------------

  /**
   * The data when step `k` is dispatched, if every step before it passed: the
   * initial data with each earlier step's result stored under its id.
   */
  function DataBefore(subset: seq<Step>, data: Fields, handle: Handler, k: nat): Fields
    requires k <= |subset|
    decreases k
  {
    if k == 0 then data
    else
      var prev := DataBefore(subset, data, handle, k - 1);
      match handle(k - 1, prev, subset[k - 1])
      case Threw(_) => prev
      case Handed(d, reply) => Store(prev, d.step, reply.result)
  }

  /** How step `k` is handled, if every step before it passed. */
  function HandledAt(subset: seq<Step>, data: Fields, handle: Handler, k: nat): Handling
    requires k < |subset|
  {
    handle(k, DataBefore(subset, data, handle, k), subset[k])
  }

  /** Step `k` is dispatched and its collaborator calls back without an error. */
  predicate Passes(subset: seq<Step>, data: Fields, handle: Handler, k: nat)
    requires k < |subset|
  {
    var h := HandledAt(subset, data, handle, k);
    h.Handed? && !Truthy(h.reply.err)
  }

  /** The number of steps a run dispatched whose results were stored: all of them but a failing last one. */
  function Stored(t: Trace): nat {
    if t.outcome.Failed? && |t.calls| > 0 then |t.calls| - 1 else |t.calls|
  }

  /**
   * The run from position `i` on dispatches the steps in subset order, each as
   * the handler handles it on the data of that moment; every step whose result
   * was stored passed, and the data is what those steps stored.
   */
  lemma {:induction false} RunFromCalls(full: string, subset: seq<Step>, data: Fields, handle: Handler,
                                        i: nat, calls: seq<Dispatch>)
    requires i < |subset| && |calls| == i
    requires forall k :: 0 <= k < i ==> Passes(subset, data, handle, k) && calls[k] == HandledAt(subset, data, handle, k).d
    ensures var t := RunFrom(full, subset, i, DataBefore(subset, data, handle, i), calls, handle);
            && i <= Stored(t) <= |t.calls| <= |subset|
            && (forall k :: 0 <= k < |t.calls| ==>
                  HandledAt(subset, data, handle, k).Handed? && t.calls[k] == HandledAt(subset, data, handle, k).d)
            && (forall k :: 0 <= k < Stored(t) ==> Passes(subset, data, handle, k))
            && t.data == DataBefore(subset, data, handle, Stored(t))
    decreases |subset| - i
  {
    var here := DataBefore(subset, data, handle, i);
    var t := RunFrom(full, subset, i, here, calls, handle);
    var h := HandledAt(subset, data, handle, i);
    RunFromHandled(full, subset, i, here, calls, handle, h);
    if h.Handed? && !Truthy(h.reply.err) && i < |subset| - 1 {
      assert DataBefore(subset, data, handle, i + 1) == Store(here, h.d.step, h.reply.result);
      RunFromCalls(full, subset, data, handle, i + 1, calls + [h.d]);
    } else if h.Handed? {
      var calls' := calls + [h.d];
      assert t.calls == calls';
      forall k | 0 <= k < |calls'|
        ensures HandledAt(subset, data, handle, k).Handed? && calls'[k] == HandledAt(subset, data, handle, k).d
      {
        if k < i {
          assert calls'[k] == calls[k];
        }
      }
      if !Truthy(h.reply.err) {
        assert DataBefore(subset, data, handle, i + 1) == Store(here, h.d.step, h.reply.result);
      }
    }
  }

  /**
   * The run from position `i` completes exactly when every step passes, and
   * then it has dispatched them all and called back with the final message.
   */
  lemma {:induction false} RunFromEnds(full: string, subset: seq<Step>, data: Fields, handle: Handler,
                                       i: nat, calls: seq<Dispatch>)
    requires i < |subset| && |calls| == i
    requires forall k :: 0 <= k < i ==> Passes(subset, data, handle, k)
    ensures var t := RunFrom(full, subset, i, DataBefore(subset, data, handle, i), calls, handle);
            && i <= |t.calls| <= |subset|
            && (t.outcome.Completed? <==> forall k :: 0 <= k < |subset| ==> Passes(subset, data, handle, k))
            && (t.outcome.Completed? ==> |t.calls| == |subset| && t.outcome.message == OVER)
    decreases |subset| - i
  {
    var here := DataBefore(subset, data, handle, i);
    var h := HandledAt(subset, data, handle, i);
    RunFromHandled(full, subset, i, here, calls, handle, h);
    if h.Handed? && !Truthy(h.reply.err) && i < |subset| - 1 {
      assert DataBefore(subset, data, handle, i + 1) == Store(here, h.d.step, h.reply.result);
      RunFromEnds(full, subset, data, handle, i + 1, calls + [h.d]);
    } else if !(h.Handed? && !Truthy(h.reply.err)) {
      assert !Passes(subset, data, handle, i);
    }
  }

  /**
   * How a run from position `i` that does not complete ends: a failure is
   * reported for the last step dispatched, with its `num`; an exception comes
   * from the step after the last one dispatched.
   */
  lemma {:induction false} RunFromStops(full: string, subset: seq<Step>, data: Fields, handle: Handler,
                                        i: nat, calls: seq<Dispatch>)
    requires i < |subset| && |calls| == i
    ensures var t := RunFrom(full, subset, i, DataBefore(subset, data, handle, i), calls, handle);
            var n := |t.calls|;
            && (t.outcome.Failed? ==>
                  && i < n <= |subset|
                  && HandledAt(subset, data, handle, n - 1).Handed?
                  && t.outcome.err == HandledAt(subset, data, handle, n - 1).reply.err && Truthy(t.outcome.err)
                  && t.outcome.num == Lookup(t.calls[n - 1].step, "num")
                  && t.outcome.report == FailureReport(full, t.outcome.num))
            && (t.outcome.Crashed? ==> n < |subset| && HandledAt(subset, data, handle, n) == Threw(t.outcome.error))
    decreases |subset| - i
  {
    var here := DataBefore(subset, data, handle, i);
    var h := HandledAt(subset, data, handle, i);
    RunFromHandled(full, subset, i, here, calls, handle, h);
    if h.Handed? && !Truthy(h.reply.err) && i < |subset| - 1 {
      assert DataBefore(subset, data, handle, i + 1) == Store(here, h.d.step, h.reply.result);
      RunFromStops(full, subset, data, handle, i + 1, calls + [h.d]);
    }
  }

  /**
   * A run completes exactly when every step of the subset passes; then every
   * step was dispatched once, in subset order, and the data is the initial data
   * with every result stored under its step's id.
   */
  lemma RunCompletes(full: string, subset: seq<Step>, data: Fields, handle: Handler)
    requires subset != []
    ensures var t := Run(full, subset, data, handle);
            && (t.outcome.Completed? <==> forall k :: 0 <= k < |subset| ==> Passes(subset, data, handle, k))
            && (t.outcome.Completed? ==>
                  && t.outcome.message == OVER
                  && |t.calls| == |subset|
                  && (forall k :: 0 <= k < |subset| ==>
                        HandledAt(subset, data, handle, k).Handed? && t.calls[k] == HandledAt(subset, data, handle, k).d)
                  && t.data == DataBefore(subset, data, handle, |subset|))
  {
    RunFromCalls(full, subset, data, handle, 0, []);
    RunFromEnds(full, subset, data, handle, 0, []);
    RunFromStops(full, subset, data, handle, 0, []);
  }

  /**
   * A failing step ends the run: it is the last step dispatched, every step
   * before it passed, nothing after it is dispatched, the report names its
   * `num`, and its result is not stored.
   */
  lemma RunFails(full: string, subset: seq<Step>, data: Fields, handle: Handler)
    requires subset != []
    ensures var t := Run(full, subset, data, handle);
            var n := |t.calls|;
            t.outcome.Failed? ==>
              && 0 < n <= |subset|
              && (forall k :: 0 <= k < n - 1 ==> Passes(subset, data, handle, k))
              && (forall k :: 0 <= k < n ==>
                    HandledAt(subset, data, handle, k).Handed? && t.calls[k] == HandledAt(subset, data, handle, k).d)
              && Truthy(HandledAt(subset, data, handle, n - 1).reply.err)
              && t.outcome.num == Lookup(t.calls[n - 1].step, "num")
              && t.outcome.report == FailureReport(full, t.outcome.num)
              && t.data == DataBefore(subset, data, handle, n - 1)
  {
    RunFromCalls(full, subset, data, handle, 0, []);
    RunFromEnds(full, subset, data, handle, 0, []);
    RunFromStops(full, subset, data, handle, 0, []);
  }

  /** An exception ends the run before the step that raised it, after every earlier step passed. */
  lemma RunCrashes(full: string, subset: seq<Step>, data: Fields, handle: Handler)
    ensures var t := Run(full, subset, data, handle);
            var n := |t.calls|;
            t.outcome.Crashed? ==>
              && (subset == [] ==> t.outcome.error == TypeError(EMPTY_SUBSET) && n == 0 && t.data == data)
              && (subset != [] ==>
                    && n < |subset|
                    && (forall k :: 0 <= k < n ==> Passes(subset, data, handle, k))
                    && HandledAt(subset, data, handle, n) == Threw(t.outcome.error)
                    && t.data == DataBefore(subset, data, handle, n))
  {
    if subset != [] {
      RunFromCalls(full, subset, data, handle, 0, []);
      RunFromEnds(full, subset, data, handle, 0, []);
      RunFromStops(full, subset, data, handle, 0, []);
    }
  }

  /**
   * A step that passes stores its result under its id for every later step to
   * see, and leaves every other key of the data as it was.
   */
  lemma {:induction false} PassedStepStores(subset: seq<Step>, data: Fields, handle: Handler, k: nat, key: string)
    requires k < |subset| && Passes(subset, data, handle, k)
    ensures var step := HandledAt(subset, data, handle, k).d.step;
            var id := Lookup(step, "id");
            var after := DataBefore(subset, data, handle, k + 1);
            && (Truthy(id) ==> Lookup(after, ToString(id)) == HandledAt(subset, data, handle, k).reply.result)
            && (key != ToString(id) ==> Lookup(after, key) == Lookup(DataBefore(subset, data, handle, k), key))
  {
    var h := HandledAt(subset, data, handle, k);
    assert DataBefore(subset, data, handle, k + 1) == Store(DataBefore(subset, data, handle, k), h.d.step, h.reply.result);
    StoreReads(DataBefore(subset, data, handle, k), h.d.step, h.reply.result, key);
  }

  // ---------------------------------------------------------------------------
  // confirmStep (lib/command.js:337-345)
  // ---------------------------------------------------------------------------

  /** Whether the user was asked 'Proceed?', and the error the continuation gets. */
  datatype Confirmation = Confirmation(asked: bool, err: Value)

  /** `answer` is the error the confirm prompt calls back with (truthy when the user declines). */
  function ConfirmStep(ask: bool, answer: Value): (c: Confirmation)
    ensures c.asked == ask
    ensures Truthy(c.err) <==> ask && Truthy(answer)
    ensures Truthy(c.err) ==> c.err == Str("Process aborted")
  {
    if !ask then Confirmation(false, Undef)
    else if Truthy(answer) then Confirmation(true, Str("Process aborted"))
    else Confirmation(true, Undef)
  }

  // ---------------------------------------------------------------------------
  // execute, doSteps and doNextStep, as the source runs them
  // ---------------------------------------------------------------------------

  /** The state a command carries while it runs. */
  class Invocation {
    const full: string
    const steps: seq<Step>
    const options: map<string, Value>
    var data: Fields
    var stepSubset: seq<Step>
    var currentStepIndex: int
    /** `command.currentStep`: None while it is undefined. */
    var currentStep: Option<Step>
    /** What doNextStep has handed to collaborators so far. */
    var dispatched: seq<Dispatch>

    constructor(command: Command)
      ensures full == command.full && steps == command.steps && options == command.options
      ensures data == command.data && stepSubset == [] && currentStep == None && dispatched == []
    {
      full, steps, options := command.full, command.steps, command.options;
      data, stepSubset, currentStepIndex, currentStep, dispatched := command.data, [], -1, None, [];
    }

    /** lib/command.js:226-241: select the subset, then run it. */
    method Execute(respond: Responder) returns (outcome: Outcome)
      requires currentStep == None && dispatched == []
      modifies this
      ensures var t := Run(full, GetStepSubset(steps, options), old(data), NextStepHandler(respond));
              outcome == t.outcome && data == t.data && dispatched == t.calls
      ensures WrittenBack(GetStepSubset(steps, options), stepSubset, dispatched, outcome)
    {
      stepSubset := GetStepSubset(steps, options);
      outcome := DoSteps(respond);
    }

    /**
     * doNextStep: advance the index, prepare the step in place (its description,
     * a confirm's prompt), compile its title and hand it to its collaborator.
     */
    method DoNextStep(respond: Responder) returns (h: Handling)
      requires currentStep == None ==> 0 < |stepSubset|
      requires currentStep != None ==> -1 <= currentStepIndex < |stepSubset| - 1
      modifies this
      ensures var i := currentStepIndex;
              && i == (if old(currentStep) == None then 0 else old(currentStepIndex) + 1)
              && 0 <= i < |stepSubset|
              && h == Handle(respond, i, data, old(stepSubset)[i])
              && stepSubset == old(stepSubset)[i := LeftBehind(old(stepSubset)[i], h)]
              && currentStep == Some(stepSubset[i])
      ensures data == old(data)
      ensures dispatched == if h.Handed? then old(dispatched) + [h.d] else old(dispatched)
    {
      if currentStep == None {
        currentStepIndex := -1;
      }
      currentStepIndex := currentStepIndex + 1;
      var i := currentStepIndex;
      var step := Prepare(stepSubset[i]);
      stepSubset := stepSubset[i := step];
      currentStep := Some(step);
      var titleError := TitleError(step);
      if titleError.Some? {
        return Threw(titleError.value);
      }
      var d := DispatchOf(step);
      stepSubset := stepSubset[i := d.step];
      currentStep := Some(d.step);
      dispatched := dispatched + [d];
      h := Handed(d, Answer(respond, i, data, d));
    }

    /** doSteps: doNextStep, then stepComplete, until a step fails or the last one is done. */
    method DoSteps(respond: Responder) returns (outcome: Outcome)
      requires currentStep == None && dispatched == []
      modifies this
      ensures var t := Run(full, old(stepSubset), old(data), NextStepHandler(respond));
              outcome == t.outcome && data == t.data && dispatched == t.calls
      ensures WrittenBack(old(stepSubset), stepSubset, dispatched, outcome)
    {
      if |stepSubset| == 0 {
        return Crashed(TypeError(EMPTY_SUBSET));
      }
      ghost var subset := stepSubset;
      ghost var handle := NextStepHandler(respond);
      ghost var goal := Run(full, subset, data, handle);
      var i := 0;
      while true
        invariant 0 <= i < |stepSubset| == |subset|
        invariant currentStep == None <==> i == 0
        invariant i > 0 ==> currentStepIndex == i - 1
        invariant |dispatched| == i
        invariant WrittenBack(subset, stepSubset, dispatched, Completed(OVER))
        invariant goal == RunFrom(full, subset, i, data, dispatched, handle)
        decreases |stepSubset| - i
      {
        ghost var before, left := dispatched, stepSubset;
        var h := DoNextStep(respond);
        assert h == handle(i, data, subset[i]);
        RunFromHandled(full, subset, i, data, before, handle, h);
        if h.Threw? {
          WrittenBackThrew(subset, left, before, h.error);
          return Crashed(h.error);
        }
        WrittenBackHanded(subset, left, before, h.d);
        var reply := h.reply;
        if Truthy(reply.err) {
          var num := Lookup(h.d.step, "num");
          WrittenBackOutcome(subset, stepSubset, dispatched, Completed(OVER), Failed(num, reply.err, FailureReport(full, num)));
          return Failed(num, reply.err, FailureReport(full, num));
        }
        data := Store(data, h.d.step, reply.result);
        if currentStepIndex < |stepSubset| - 1 {
          i := i + 1;
        } else {
          return Completed(OVER);
        }
      }
    }
  }

  /**
   * The subset after a run: each dispatched step is written back as doNextStep
   * left it (its description filled in, a confirm's prompt set); a step whose
   * title threw keeps only its description; the rest are untouched.
   */
  ghost predicate WrittenBack(before: seq<Step>, after: seq<Step>, calls: seq<Dispatch>, outcome: Outcome) {
    && |after| == |before| && |calls| <= |before|
    && (forall k :: 0 <= k < |calls| ==> after[k] == calls[k].step)
    && (forall k :: |calls| <= k < |before| ==>
          after[k] == if k == |calls| && outcome.Crashed? then Prepare(before[k]) else before[k])
  }

  /** Handing step `|calls|` over writes back its dispatched record. */
  lemma WrittenBackHanded(before: seq<Step>, after: seq<Step>, calls: seq<Dispatch>, d: Dispatch)
    requires WrittenBack(before, after, calls, Completed(OVER)) && |calls| < |before|
    ensures WrittenBack(before, after[|calls| := d.step], calls + [d], Completed(OVER))
  {
  }

  /** A step whose title throws is left prepared, and ends the run. */
  lemma WrittenBackThrew(before: seq<Step>, after: seq<Step>, calls: seq<Dispatch>, e: Error)
    requires WrittenBack(before, after, calls, Completed(OVER)) && |calls| < |before|
    ensures WrittenBack(before, after[|calls| := Prepare(before[|calls|])], calls, Crashed(e))
  {
  }

  /** Only a crash leaves a prepared record behind: the other outcomes agree on what is written back. */
  lemma WrittenBackOutcome(before: seq<Step>, after: seq<Step>, calls: seq<Dispatch>, o1: Outcome, o2: Outcome)
    requires WrittenBack(before, after, calls, o1) && !o1.Crashed? && !o2.Crashed?
    ensures WrittenBack(before, after, calls, o2)
  {
  }
}
