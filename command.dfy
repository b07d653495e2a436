/**
 * lib/command.js: resolving command-name tokens against the configuration tree
 * (`build`), flattening a command's steps with their includes into one numbered
 * list (`compileSteps`, `normalizeStep`) and selecting the range of steps to run
 * (`getStepSubset`).
 *
 * Each imperative routine of the source is a method proved equal to a function
 * that states what it computes; the properties are lemmas about the functions.
 */
module Commands {
  import opened Values
  import opened Errors
  import opened OptionTable

  /** The fields of a plain object (the configuration root, a step record). */
  type Fields = seq<(string, Value)>

  /** A compiled step: the step object, carrying its global `num`. */
  type Step = Fields

  /**
   * The command object build returns. The `config` back-reference and each
   * step's `command` back-reference are not part of this model; `data` is the
   * object the running steps store their results in.
   */
  datatype Command = Command(
    name: string,
    full: string,
    names: seq<string>,
    options: map<string, Value>,
    data: Fields,
    args: seq<string>,
    steps: seq<Step>)

  /** `options[key]` on an options object: undefined when absent. */
  function Get(m: map<string, Value>, key: string): Value {
    if key in m then m[key] else Undef
  }

  /** `a || b`. */
  function Or(a: Value, b: Value): Value {
    if Truthy(a) then a else b
  }

  // ---------------------------------------------------------------------------
  // Translating the command-line options (lib/command.js:73-76)
  // ---------------------------------------------------------------------------

  /** The options object after the first `n` entries of OPTIONS were translated. */
  function TranslatedOptions(raw: map<string, Value>, n: nat): map<string, Value>
    requires n <= |OPTIONS|
  {
    if n == 0 then map[]
    else
      var (name, details) := OPTIONS[n - 1];
      TranslatedOptions(raw, n - 1)[name := Or(Get(raw, name), Get(raw, details.short))]
  }

  /** Every entry of OPTIONS, long name or short letter, is read into its long name. */
  lemma {:induction false} TranslatedOptionsReads(raw: map<string, Value>, n: nat, i: nat)
    requires i < n <= |OPTIONS|
    ensures OPTIONS[i].0 in TranslatedOptions(raw, n)
    ensures TranslatedOptions(raw, n)[OPTIONS[i].0]
         == Or(Get(raw, OPTIONS[i].0), Get(raw, OPTIONS[i].1.short))
  {
    if i < n - 1 {
      TranslatedOptionsReads(raw, n - 1, i);
      assert OPTIONS[i].0 != OPTIONS[n - 1].0;
    }
  }

  /** The translated options hold the long names of OPTIONS and nothing else. */
  lemma {:induction false} TranslatedOptionsKeys(raw: map<string, Value>, n: nat)
    requires n <= |OPTIONS|
    ensures forall key :: key in TranslatedOptions(raw, n) ==> exists j :: 0 <= j < n && OPTIONS[j].0 == key
  {
    if n > 0 {
      TranslatedOptionsKeys(raw, n - 1);
    }
  }

  /** Help mode is on when `--help` or `-h` was given. */
  lemma HelpOption(raw: map<string, Value>)
    ensures Truthy(Get(TranslatedOptions(raw, |OPTIONS|), "help"))
        <==> Truthy(Get(raw, "help")) || Truthy(Get(raw, "h"))
  {
    TranslatedOptionsReads(raw, |OPTIONS|, 0);
  }

  // ---------------------------------------------------------------------------
  // Walking the command names (lib/command.js:78-118)
  // ---------------------------------------------------------------------------

  /** Where the walk stopped: the config node reached, the names matched, the tokens left, and whether `help` stopped it. */
  datatype Walked = Walked(node: Value, names: seq<string>, rest: seq<string>, help: bool)

  /** The error for a name whose config entry is missing or falsy. */
  function NotFound(names: seq<string>): Error {
    User("The `" + Join(names, " ") + "` command does not exist")
  }

  /** The error for a name whose config entry is not an object. */
  function NotACommand(names: seq<string>): Error {
    Config("\"" + Join(names, " ") + "\" is not defined as a command")
  }

  /**
   * The while loop of build, from the object `node` with the names matched so
   * far: a missing or empty token ends it, `help` ends it in help mode, and a
   * child that is an array or has truthy `steps` is where it stops.
   */
  function Walk(node: Value, tokens: seq<string>, names: seq<string>): (r: Result<Walked>)
    requires node.Obj?
    ensures r.Ok? ==> r.value.node.Obj? || r.value.node.Arr?
    decreases |tokens|
  {
    if tokens == [] then Ok(Walked(node, names, [], false))
    else if tokens[0] == "" then Ok(Walked(node, names, tokens[1..], false))
    else if tokens[0] == "help" then Ok(Walked(node, names, tokens[1..], true))
    else
      var matched := names + [tokens[0]];
      var child := Lookup(node.fields, tokens[0]);
      if !Truthy(child) then Err(NotFound(matched))
      else if !IsObject(child) then Err(NotACommand(matched))
      else if child.Arr? || Truthy(Lookup(child.fields, "steps")) then Ok(Walked(child, matched, tokens[1..], false))
      else Walk(child, tokens[1..], matched)
  }

  /** A group: a plain object without truthy `steps`, which the walk passes through. */
  predicate IsGroup(v: Value) {
    v.Obj? && !Truthy(Lookup(v.fields, "steps"))
  }

  /** `path` names groups all the way down from `node`, with no empty or `help` token. */
  predicate GroupPath(node: Value, path: seq<string>)
    decreases |path|
  {
    node.Obj? &&
    (path == [] ||
     (path[0] != "" && path[0] != "help" && IsGroup(Lookup(node.fields, path[0]))
      && GroupPath(Lookup(node.fields, path[0]), path[1..])))
  }

  /** The group reached along such a path. */
  function Descend(node: Value, path: seq<string>): (r: Value)
    requires GroupPath(node, path)
    ensures r.Obj?
    decreases |path|
  {
    if path == [] then node else Descend(Lookup(node.fields, path[0]), path[1..])
  }

  /** Walking through groups only extends the matched names. */
  lemma {:induction false} WalkThroughGroups(node: Value, path: seq<string>, tokens: seq<string>, names: seq<string>)
    requires GroupPath(node, path)
    ensures Walk(node, path + tokens, names) == Walk(Descend(node, path), tokens, names + path)
    decreases |path|
  {
    if path == [] {
      assert path + tokens == tokens;
      assert names + path == names;
    } else {
      var child := Lookup(node.fields, path[0]);
      var all := path + tokens;
      assert all[0] == path[0];
      assert all[1..] == path[1..] + tokens;
      assert Walk(node, all, names) == Walk(child, all[1..], names + [path[0]]);
      WalkThroughGroups(child, path[1..], tokens, names + [path[0]]);
      assert names + [path[0]] + path[1..] == names + path;
    }
  }

  /** A `help` token ends the walk in help mode at the group reached so far. */
  lemma WalkHelp(root: Fields, path: seq<string>, rest: seq<string>)
    requires GroupPath(Obj(root), path)
    ensures Walk(Obj(root), path + ["help"] + rest, [])
         == Ok(Walked(Descend(Obj(root), path), path, rest, true))
  {
    WalkThroughGroups(Obj(root), path, ["help"] + rest, []);
    SplitAt(path, "help", rest);
  }

  /**
   * The walk stops at the first child that is an array or has truthy `steps`;
   * the tokens after it are left over.
   */
  lemma WalkStopsAtCommand(root: Fields, path: seq<string>, name: string, rest: seq<string>)
    requires GroupPath(Obj(root), path) && name != "" && name != "help"
    requires var c := Lookup(Descend(Obj(root), path).fields, name);
             c.Arr? || (c.Obj? && Truthy(Lookup(c.fields, "steps")))
    ensures Walk(Obj(root), path + [name] + rest, [])
         == Ok(Walked(Lookup(Descend(Obj(root), path).fields, name), path + [name], rest, false))
  {
    WalkThroughGroups(Obj(root), path, [name] + rest, []);
    SplitAt(path, name, rest);
  }

  /** A missing or falsy entry fails with the User error naming the full command. */
  lemma WalkMissing(root: Fields, path: seq<string>, name: string, rest: seq<string>)
    requires GroupPath(Obj(root), path) && name != "" && name != "help"
    requires !Truthy(Lookup(Descend(Obj(root), path).fields, name))
    ensures Walk(Obj(root), path + [name] + rest, []) == Err(NotFound(path + [name]))
  {
    WalkThroughGroups(Obj(root), path, [name] + rest, []);
    SplitAt(path, name, rest);
  }

  /** A present entry that is not an object fails with the Config error. */
  lemma WalkNotObject(root: Fields, path: seq<string>, name: string, rest: seq<string>)
    requires GroupPath(Obj(root), path) && name != "" && name != "help"
    requires var c := Lookup(Descend(Obj(root), path).fields, name);
             Truthy(c) && !IsObject(c)
    ensures Walk(Obj(root), path + [name] + rest, []) == Err(NotACommand(path + [name]))
  {
    WalkThroughGroups(Obj(root), path, [name] + rest, []);
    SplitAt(path, name, rest);
  }

  // ---------------------------------------------------------------------------
  // The step list of a resolved command (lib/command.js:127-136)
  // ---------------------------------------------------------------------------

  /** `command.steps` after the walk: the array itself, or the node's `steps`. */
  function StepsOf(node: Value): Value {
    if node.Arr? then node else if node.Obj? then Lookup(node.fields, "steps") else Undef
  }

  /** The error for a command whose step list is empty. */
  function NoSteps(full: string): Error {
    Config("There are no steps defined for the `" + full + "` command")
  }

  /**
   * What compileSteps iterates over, read through `steps.length` and `steps[i]`:
   * undefined and null have no length (a TypeError), an empty array or string is
   * the NoSteps error, a string yields its characters, and any other value
   * without a `length` no steps at all. On an object, only a `length` that is
   * the number 0 meets `=== 0`; the loop test `i < length` converts any other
   * `length` to a number, and the object yields that many indexed entries
   * (none when it is NaN or not positive).
   */
  function StepItems(steps: Value, full: string): Result<seq<Value>> {
    match steps
    case Undef => Err(TypeError("Cannot read property 'length' of undefined"))
    case Null => Err(TypeError("Cannot read property 'length' of null"))
    case Arr(items) => if items == [] then Err(NoSteps(full)) else Ok(items)
    case Str(s) => if s == "" then Err(NoSteps(full)) else Ok(Chars(s))
    case Obj(fields) =>
      var length := Lookup(fields, "length");
      if length == Num(0) then Err(NoSteps(full))
      else
        (match ToNumber(length)
         case Some(k) => if k > 0 then Ok(Entries(fields, k)) else Ok([])
         case None => Ok([]))
    case _ => Ok([])
  }

  /** `s[i]` for each index of a string: its one-character strings. */
  function Chars(s: string): (r: seq<Value>)
    ensures |r| == |s|
  {
    if s == [] then [] else [Str([s[0]])] + Chars(s[1..])
  }

  /** `o[0]`, …, `o[k - 1]` on an array-like object. */
  function Entries(fields: Fields, k: nat): (r: seq<Value>)
    ensures |r| == k
  {
    if k == 0 then [] else Entries(fields, k - 1) + [Lookup(fields, NatToString(k - 1))]
  }

  /** Entry `i` of an array-like object is its property named `String(i)`. */
  lemma {:induction false} EntriesAt(fields: Fields, k: nat)
    ensures forall i :: 0 <= i < k ==> Entries(fields, k)[i] == Lookup(fields, NatToString(i))
  {
    if k > 0 {
      EntriesAt(fields, k - 1);
    }
  }

  /**
   * A step object whose `length` is not the number 0 but converts to `k` is
   * iterated as `steps[0]`, …, `steps[k - 1]`.
   */
  lemma StepItemsArrayLike(fields: Fields, full: string, k: nat)
    requires Lookup(fields, "length") != Num(0) && ToNumber(Lookup(fields, "length")) == Some(k)
    ensures var r := StepItems(Obj(fields), full);
            && r.Ok? && |r.value| == k
            && forall i :: 0 <= i < k ==> r.value[i] == Lookup(fields, NatToString(i))
  {
    EntriesAt(fields, k);
  }

  // ---------------------------------------------------------------------------
  // normalizeStep (lib/command.js:181-195)
  // ---------------------------------------------------------------------------

  /** A string is `{exec}`, an array `[exec, desc, id]` is `{exec, desc, id}`, anything else is kept. */
  function NormalizeStep(step: Value): Value {
    match step
    case Str(_) => Obj([("exec", step)])
    case Arr(a) => Obj([("exec", Index(a, 0)), ("desc", Index(a, 1)), ("id", Index(a, 2))])
    case _ => step
  }

  /** How a normalised step reads (test/step_test.js:76-111). */
  lemma NormalizeStepReads(step: Value)
    ensures step.Str? ==> var r := NormalizeStep(step);
      r.Obj? && Keys(r.fields) == ["exec"] && Lookup(r.fields, "exec") == step
    ensures step.Arr? ==> var r := NormalizeStep(step);
      && r.Obj? && Keys(r.fields) == ["exec", "desc", "id"]
      && Lookup(r.fields, "exec") == Index(step.items, 0)
      && Lookup(r.fields, "desc") == Index(step.items, 1)
      && Lookup(r.fields, "id") == Index(step.items, 2)
    ensures !step.Str? && !step.Arr? ==> NormalizeStep(step) == step
  {
    if step.Arr? {
      var f := NormalizeStep(step).fields;
      assert f[2..][1..] == [];
      assert Keys(f[2..]) == ["id"];
      assert f[1..][1..] == f[2..];
      assert Keys(f[1..]) == ["desc"] + Keys(f[2..]);
      assert Keys(f) == ["exec"] + Keys(f[1..]);
      assert Lookup(f[1..], "desc") == Index(step.items, 1);
      assert Lookup(f[2..], "id") == Index(step.items, 2);
      assert Lookup(f, "id") == Lookup(f[1..], "id") == Lookup(f[2..], "id");
    }
  }

  /** Normalising a normalised step changes nothing. */
  lemma NormalizeStepIdempotent(step: Value)
    ensures NormalizeStep(NormalizeStep(step)) == NormalizeStep(step)
  {
  }

  // ---------------------------------------------------------------------------
  // compileSteps (lib/command.js:148-179), as functions
  // ---------------------------------------------------------------------------

  /** A step's `include` entry (undefined on anything but an object). */
  function IncludeOf(step: Value): Value {
    if step.Obj? then Lookup(step.fields, "include") else Undef
  }

  /** `typeof v`, for the primitives a step can be. */
  function TypeName(v: Value): string {
    match v
    case Bool(_) => "boolean"
    case Num(_) => "number"
    case Str(_) => "string"
    case _ => "object"
  }

  /** Compiled steps fed back to addSteps: each step object as a value. */
  function Objs(steps: seq<Step>): (r: seq<Value>)
    ensures |r| == |steps|
  {
    if steps == [] then [] else [Obj(steps[0])] + Objs(steps[1..])
  }

  /** The steps numbered `base + 1`, `base + 2`, … in order (`step.num = ++stepNum`). */
  function NumberedFrom(steps: seq<Step>, base: nat): (r: seq<Step>)
    ensures |r| == |steps|
  {
    if steps == [] then [] else [Set(steps[0], "num", Num(base + 1))] + NumberedFrom(steps[1..], base + 1)
  }

  /**
   * The command `build(root, tokens, raw)` returns. `fuel` bounds the depth of
   * nested includes; running out of it stands for the engine's stack overflow
   * on an include cycle. `render` is the template engine applied to an include
   * name (with the command's data, which is empty while compiling).
   */
  function BuildSpec(root: Fields, tokens: seq<string>, raw: map<string, Value>, fuel: nat, render: string -> string): Result<Command>
    decreases fuel, 4
  {
    var options := TranslatedOptions(raw, |OPTIONS|);
    match Walk(Obj(root), tokens, [])
    case Err(e) => Err(e)
    case Ok(w) =>
      var options := if w.help then options["help" := Bool(true)] else options;
      var name := if w.names == [] then "" else w.names[|w.names| - 1];
      var full := Join(w.names, " ");
      if Truthy(Get(options, "help")) then Ok(Command(name, full, w.names, options, [], [], []))
      else
        match StepItems(StepsOf(w.node), full)
        case Err(e) => Err(e)
        case Ok(items) =>
          match CompiledSpec(root, items, fuel, render)
          case Err(e) => Err(e)
          case Ok(steps) => Ok(Command(name, full, w.names, options, [], w.rest, steps))
  }

  /** What compileSteps returns for the configured steps `items`. */
  function CompiledSpec(root: Fields, items: seq<Value>, fuel: nat, render: string -> string): Result<seq<Step>>
    decreases fuel, 3
  {
    match ItemsSpec(root, items, 0, fuel, render)
    case Err(e) => Err(e)
    case Ok(flat) => Ok(NumberedFrom(flat, 0))
  }

  /** The steps (before numbering) the items from index `i` on contribute, in order; the first error ends the list. */
  function ItemsSpec(root: Fields, items: seq<Value>, i: nat, fuel: nat, render: string -> string): Result<seq<Step>>
    requires i <= |items|
    decreases fuel, 2, |items| - i
  {
    if i == |items| then Ok([])
    else
      match Contribution(root, items[i], fuel, render)
      case Err(e) => Err(e)
      case Ok(added) => Prepend(added, ItemsSpec(root, items, i + 1, fuel, render))
  }

  /** `steps` followed by the steps of `rest`, or the error of `rest`. */
  function Prepend(steps: seq<Step>, rest: Result<seq<Step>>): Result<seq<Step>> {
    match rest
    case Err(e) => Err(e)
    case Ok(more) => Ok(steps + more)
  }

  /**
   * The steps one configured item contributes: itself, or for a truthy
   * `include` the steps of the command the rendered include names, built from
   * the root and fed through addSteps again.
   */
  function Contribution(root: Fields, item: Value, fuel: nat, render: string -> string): Result<seq<Step>>
    decreases fuel, 1
  {
    var step := NormalizeStep(item);
    if step.Undef? || step.Null? then
      Err(TypeError(if step.Undef? then "Cannot read property 'include' of undefined" else "Cannot read property 'include' of null"))
    else
      var inc := IncludeOf(step);
      if Truthy(inc) then
        if !inc.Str? then
          Err(TemplateError("You must pass a string or Handlebars AST to Handlebars.compile. You passed " + ToString(inc)))
        else IncludedSpec(root, inc.s, fuel, render)
      else if step.Obj? then Ok([step.fields])
      else Err(TypeError("Cannot create property 'num' on " + TypeName(step) + " '" + ToString(step) + "'"))
  }

  /** The steps an `include` template contributes: those of the command it renders to, fed through addSteps again. */
  function IncludedSpec(root: Fields, template: string, fuel: nat, render: string -> string): Result<seq<Step>>
    decreases fuel, 0
  {
    if fuel == 0 then Err(Overflow)
    else
      match BuildSpec(root, Split(render(template), ' '), map[], fuel - 1, render)
      case Err(e) => Err(e)
      case Ok(inner) =>
        if Truthy(Get(inner.options, "help")) then
          Err(TypeError("Cannot read property 'length' of undefined"))
        else ItemsSpec(root, Objs(inner.steps), 0, fuel - 1, render)
  }

  // ---------------------------------------------------------------------------
  // build and compileSteps, as the loops of the source
  // ---------------------------------------------------------------------------

  /** lib/command.js:53-141: resolve `tokens`, then check and compile the command's steps. */
  method Build(root: Fields, tokens: seq<string>, raw: map<string, Value>, fuel: nat, render: string -> string)
    returns (r: Result<Command>)
    ensures r == BuildSpec(root, tokens, raw, fuel, render)
    decreases fuel, 4
  {
    var name, full, names := "", "", [];
    var options: map<string, Value> := map[];
    for i := 0 to |OPTIONS|
      invariant options == TranslatedOptions(raw, i)
    {
      var (optName, details) := OPTIONS[i];
      options := options[optName := Or(Get(raw, optName), Get(raw, details.short))];
    }
    ghost var translated := options;

    var commandNames := tokens;
    var commandConfig := Obj(root);
    var arraySteps: Value := Undef;
    ghost var helpToken := false;
    var done := false;
    while !done
      invariant commandConfig.Obj? || commandConfig.Arr?
      invariant arraySteps == (if commandConfig.Arr? then commandConfig else Undef)
      invariant name == (if names == [] then "" else names[|names| - 1])
      invariant full == Join(names, " ")
      invariant options == if helpToken then translated["help" := Bool(true)] else translated
      invariant !done ==> commandConfig.Obj? && !helpToken
                          && Walk(Obj(root), tokens, []) == Walk(commandConfig, commandNames, names)
      invariant done ==> Walk(Obj(root), tokens, []) == Ok(Walked(commandConfig, names, commandNames, helpToken))
      decreases |commandNames|, !done
    {
      if commandNames == [] {
        done := true;
      } else {
        var currentName := commandNames[0];
        commandNames := commandNames[1..];
        if currentName == "" {
          done := true;
        } else if currentName == "help" {
          // help for the command built so far
          options := options["help" := Bool(true)];
          helpToken := true;
          done := true;
        } else {
          name := currentName;
          names := names + [currentName];
          full := Join(names, " ");
          var child := Lookup(commandConfig.fields, currentName);
          if !Truthy(child) {
            return Err(NotFound(names));
          }
          if !IsObject(child) {
            return Err(NotACommand(names));
          }
          commandConfig := child;
          if child.Arr? {
            arraySteps := child;
            done := true;
          } else if Truthy(Lookup(child.fields, "steps")) {
            // the merge at lib/command.js:113 writes to the module object, not to this command
            done := true;
          }
        }
      }
    }

    if Truthy(Get(options, "help")) {
      return Ok(Command(name, full, names, options, [], [], []));
    }
    // _.assign(_.cloneDeep(commandConfig), command): `steps` comes from the config node
    var steps := if arraySteps.Arr? then arraySteps else Lookup(commandConfig.fields, "steps");
    var args := commandNames;
    var items := StepItems(steps, full);
    if items.Err? {
      return Err(items.error);
    }
    var compiled := CompileSteps(root, items.value, fuel, render);
    if compiled.Err? {
      return Err(compiled.error);
    }
    r := Ok(Command(name, full, names, options, [], args, compiled.value));
  }

  /** lib/command.js:148-179: the flat, numbered step list of a command's configured steps. */
  method CompileSteps(root: Fields, configSteps: seq<Value>, fuel: nat, render: string -> string)
    returns (r: Result<seq<Step>>)
    ensures r == CompiledSpec(root, configSteps, fuel, render)
    decreases fuel, 3
  {
    var compilation := new Compilation();
    var added, spec := compilation.AddSteps(root, configSteps, fuel, render);
    if added.Err? {
      assert spec == Err(added.error);
      assert CompiledSpec(root, configSteps, fuel, render) == Err(added.error);
      return Err(added.error);
    }
    r := Ok(compilation.steps);
    assert compilation.steps == [] + NumberedFrom(spec.value, 0);
    AppendNothing(NumberedFrom(spec.value, 0));
    assert CompiledSpec(root, configSteps, fuel, render) == Ok(NumberedFrom(spec.value, 0));
  }

  /** The state the addSteps closure of compileSteps shares across its recursive calls. */
  class Compilation {
    var steps: seq<Step>
    var stepNum: nat

    constructor()
      ensures steps == [] && stepNum == 0
    {
      steps := [];
      stepNum := 0;
    }

    /** addSteps: push each configured step with the next number, splicing in included commands. */
    method AddSteps(root: Fields, configSteps: seq<Value>, fuel: nat, render: string -> string)
      returns (r: Result<()>, ghost spec: Result<seq<Step>>)
      requires stepNum == |steps|
      modifies this
      ensures spec == ItemsSpec(root, configSteps, 0, fuel, render)
      ensures stepNum == |steps|
      ensures spec.Err? ==> r == Err(spec.error)
      ensures spec.Ok? ==> r == Ok(()) && steps == old(steps) + NumberedFrom(spec.value, |old(steps)|)
      decreases fuel, 2
    {
      spec := ItemsSpec(root, configSteps, 0, fuel, render);
      ghost var base := steps;
      ghost var flat: seq<Step> := [];
      PrependNothing(spec);
      var i := 0;
      while i < |configSteps|
        invariant 0 <= i <= |configSteps|
        invariant stepNum == |steps|
        invariant spec == Prepend(flat, ItemsSpec(root, configSteps, i, fuel, render))
        invariant steps == base + NumberedFrom(flat, |base|)
      {
        ghost var before := steps;
        var added, contribution := AddStep(root, configSteps[i], fuel, render);
        if added.Err? {
          r := added;
          return;
        }
        PrependAppend(flat, contribution.value, ItemsSpec(root, configSteps, i + 1, fuel, render));
        NumberedExtend(base, flat, contribution.value, before);
        flat := flat + contribution.value;
        i := i + 1;
      }
      assert flat + [] == flat;
      r := Ok(());
    }

    /** One iteration of the for loop of addSteps. */
    method AddStep(root: Fields, configStep: Value, fuel: nat, render: string -> string)
      returns (r: Result<()>, ghost spec: Result<seq<Step>>)
      requires stepNum == |steps|
      modifies this
      ensures spec == Contribution(root, configStep, fuel, render)
      ensures stepNum == |steps|
      ensures spec.Err? ==> r == Err(spec.error)
      ensures spec.Ok? ==> r == Ok(()) && steps == old(steps) + NumberedFrom(spec.value, |old(steps)|)
      decreases fuel, 1
    {
      spec := Contribution(root, configStep, fuel, render);
      var step := NormalizeStep(configStep);
      if step.Undef? || step.Null? {
        r := Err(TypeError(if step.Undef? then "Cannot read property 'include' of undefined" else "Cannot read property 'include' of null"));
        return;
      }
      var inc := IncludeOf(step);
      if Truthy(inc) {
        if !inc.Str? {
          r := Err(TemplateError("You must pass a string or Handlebars AST to Handlebars.compile. You passed " + ToString(inc)));
          return;
        }
        ghost var included;
        r, included := AddIncluded(root, inc.s, fuel, render);
      } else if step.Obj? {
        stepNum := stepNum + 1;
        steps := steps + [Set(step.fields, "num", Num(stepNum))];
        r := Ok(());
      } else {
        // strict mode: a primitive step cannot take the `num` property
        r := Err(TypeError("Cannot create property 'num' on " + TypeName(step) + " '" + ToString(step) + "'"));
      }
    }

    /** The include branch of addSteps: build the command the template names and add its steps. */
    method AddIncluded(root: Fields, template: string, fuel: nat, render: string -> string)
      returns (r: Result<()>, ghost spec: Result<seq<Step>>)
      requires stepNum == |steps|
      modifies this
      ensures spec == IncludedSpec(root, template, fuel, render)
      ensures stepNum == |steps|
      ensures spec.Err? ==> r == Err(spec.error)
      ensures spec.Ok? ==> r == Ok(()) && steps == old(steps) + NumberedFrom(spec.value, |old(steps)|)
      decreases fuel, 0
    {
      spec := IncludedSpec(root, template, fuel, render);
      if fuel == 0 {
        r := Err(Overflow);
        return;
      }
      // include = handlebars.compile(include)(command.data); include = Command.build(config, include)
      var inner := Build(root, Split(render(template), ' '), map[], fuel - 1, render);
      if inner.Err? {
        r := Err(inner.error);
        return;
      }
      if Truthy(Get(inner.value.options, "help")) {
        // a help-mode command has no steps: addSteps(undefined) reads undefined.length
        r := Err(TypeError("Cannot read property 'length' of undefined"));
        return;
      }
      assert spec == ItemsSpec(root, Objs(inner.value.steps), 0, fuel - 1, render);
      ghost var innerSpec;
      r, innerSpec := AddSteps(root, Objs(inner.value.steps), fuel - 1, render);
    }
  }

  /** Prepending nothing changes nothing. */
  lemma PrependNothing(rest: Result<seq<Step>>)
    ensures Prepend([], rest) == rest
  {
    if rest.Ok? {
      AppendNothing(rest.value);
    }
  }

  /** Prepending in two goes is prepending the concatenation. */
  lemma PrependAppend(a: seq<Step>, b: seq<Step>, rest: Result<seq<Step>>)
    ensures Prepend(a, Prepend(b, rest)) == Prepend(a + b, rest)
  {
    if rest.Ok? {
      AppendAssoc(a, b, rest.value);
    }
  }

  /** Pushing the numbered steps of `more` onto a list numbered after `base` keeps it numbered after `base`. */
  lemma {:induction false} NumberedExtend(base: seq<Step>, flat: seq<Step>, more: seq<Step>, steps: seq<Step>)
    requires steps == base + NumberedFrom(flat, |base|)
    ensures steps + NumberedFrom(more, |steps|) == base + NumberedFrom(flat + more, |base|)
  {
    NumberedFromAppend(flat, more, |base|);
    var a, b := NumberedFrom(flat, |base|), NumberedFrom(more, |base| + |flat|);
    assert NumberedFrom(more, |steps|) == b;
    assert steps + b == base + (a + b);
  }

  /** Numbering a concatenation numbers the second part on from where the first stopped. */
  lemma {:induction false} NumberedFromAppend(a: seq<Step>, b: seq<Step>, base: nat)
    ensures NumberedFrom(a + b, base) == NumberedFrom(a, base) + NumberedFrom(b, base + |a|)
  {
    if a != [] {
      assert (a + b)[1..] == a[1..] + b;
      NumberedFromAppend(a[1..], b, base + 1);
    } else {
      assert a + b == b;
    }
  }

  // ---------------------------------------------------------------------------
  // What build and compileSteps promise
  // ---------------------------------------------------------------------------

  /**
   * Help mode (a `help` token, `--help` or `-h`) returns the command as resolved
   * so far without reading its steps: no step error can arise, and it has no
   * steps and no args.
   */
  lemma BuildHelpMode(root: Fields, tokens: seq<string>, raw: map<string, Value>, fuel: nat, render: string -> string)
    requires Walk(Obj(root), tokens, []).Ok?
    requires Walk(Obj(root), tokens, []).value.help || Truthy(Get(raw, "help")) || Truthy(Get(raw, "h"))
    ensures var w := Walk(Obj(root), tokens, []).value;
            var r := BuildSpec(root, tokens, raw, fuel, render);
            && r.Ok?
            && Truthy(Get(r.value.options, "help"))
            && r.value.names == w.names && r.value.full == Join(w.names, " ")
            && r.value.steps == [] && r.value.args == [] && r.value.data == []
  {
    HelpOption(raw);
  }

  /**
   * Without help, the command resolved at a command node is named by the
   * matched names, keeps the remaining tokens as args, starts with empty data,
   * and carries the compiled steps; its only errors are those of the steps.
   */
  lemma BuildStopsAtCommand(root: Fields, path: seq<string>, name: string, rest: seq<string>,
                            raw: map<string, Value>, fuel: nat, render: string -> string)
    requires GroupPath(Obj(root), path) && name != "" && name != "help"
    requires var c := Lookup(Descend(Obj(root), path).fields, name);
             c.Arr? || (c.Obj? && Truthy(Lookup(c.fields, "steps")))
    requires !Truthy(Get(raw, "help")) && !Truthy(Get(raw, "h"))
    ensures var c := Lookup(Descend(Obj(root), path).fields, name);
            var full := Join(path + [name], " ");
            var items := StepItems(StepsOf(c), full);
            var r := BuildSpec(root, path + [name] + rest, raw, fuel, render);
            && (items.Err? ==> r == Err(items.error))
            && (items.Ok? ==> r.Ok? == CompiledSpec(root, items.value, fuel, render).Ok?)
            && (r.Ok? ==>
                  && r.value.name == name && r.value.full == full && r.value.names == path + [name]
                  && r.value.args == rest && r.value.data == []
                  && r.value.options == TranslatedOptions(raw, |OPTIONS|)
                  && r.value.steps == CompiledSpec(root, items.value, fuel, render).value)
  {
    WalkStopsAtCommand(root, path, name, rest);
    HelpOption(raw);
  }

  /** A command whose steps list is empty fails with the Config error naming it. */
  lemma BuildEmptySteps(root: Fields, path: seq<string>, name: string, rest: seq<string>,
                        raw: map<string, Value>, fuel: nat, render: string -> string)
    requires GroupPath(Obj(root), path) && name != "" && name != "help"
    requires var c := Lookup(Descend(Obj(root), path).fields, name);
             c == Arr([]) || (c.Obj? && Lookup(c.fields, "steps") == Arr([]))
    requires !Truthy(Get(raw, "help")) && !Truthy(Get(raw, "h"))
    ensures BuildSpec(root, path + [name] + rest, raw, fuel, render) == Err(NoSteps(Join(path + [name], " ")))
  {
    BuildStopsAtCommand(root, path, name, rest, raw, fuel, render);
  }

  /**
   * Tokens that run out at a group (no `steps` at all) reach `steps.length`
   * with `steps` undefined: a TypeError, not a configuration error.
   */
  lemma BuildGroupTerminal(root: Fields, path: seq<string>, raw: map<string, Value>, fuel: nat, render: string -> string)
    requires GroupPath(Obj(root), path)
    requires Lookup(Descend(Obj(root), path).fields, "steps") == Undef
    requires !Truthy(Get(raw, "help")) && !Truthy(Get(raw, "h"))
    ensures BuildSpec(root, path, raw, fuel, render) == Err(TypeError("Cannot read property 'length' of undefined"))
  {
    WalkThroughGroups(Obj(root), path, [], []);
    AppendNothing(path);
    HelpOption(raw);
  }

  /** A missing command fails with the User error, before anything else is looked at. */
  lemma BuildMissing(root: Fields, path: seq<string>, name: string, rest: seq<string>,
                     raw: map<string, Value>, fuel: nat, render: string -> string)
    requires GroupPath(Obj(root), path) && name != "" && name != "help"
    requires !Truthy(Lookup(Descend(Obj(root), path).fields, name))
    ensures BuildSpec(root, path + [name] + rest, raw, fuel, render) == Err(NotFound(path + [name]))
  {
    WalkMissing(root, path, name, rest);
  }

  /** No compiled step carries a truthy `include`. */
  predicate IncludeFree(steps: seq<Step>) {
    forall k :: 0 <= k < |steps| ==> !Truthy(Lookup(steps[k], "include"))
  }

  /** Each step `k` of a compiled list has `num` equal to `base + k + 1`. */
  lemma {:induction false} NumberedFromNums(steps: seq<Step>, base: nat)
    ensures forall k :: 0 <= k < |steps| ==> Lookup(NumberedFrom(steps, base)[k], "num") == Num(base + k + 1)
    ensures forall k :: 0 <= k < |steps| ==> Lookup(NumberedFrom(steps, base)[k], "include") == Lookup(steps[k], "include")
  {
    if steps != [] {
      NumberedFromNums(steps[1..], base + 1);
      LookupSetSame(steps[0], "num", Num(base + 1));
      LookupSetOther(steps[0], "num", Num(base + 1), "include");
      var r := NumberedFrom(steps, base);
      forall k | 0 < k < |steps|
        ensures Lookup(r[k], "num") == Num(base + k + 1)
        ensures Lookup(r[k], "include") == Lookup(steps[k], "include")
      {
        assert r[k] == NumberedFrom(steps[1..], base + 1)[k - 1];
      }
    }
  }

  /** compileSteps numbers its steps 1, 2, … in order. */
  lemma CompiledNumbers(root: Fields, items: seq<Value>, fuel: nat, render: string -> string)
    requires CompiledSpec(root, items, fuel, render).Ok?
    ensures var steps := CompiledSpec(root, items, fuel, render).value;
            forall k :: 0 <= k < |steps| ==> Lookup(steps[k], "num") == Num(k + 1)
  {
    NumberedFromNums(ItemsSpec(root, items, 0, fuel, render).value, 0);
  }

  /** The steps of a built command carry no `include`: every include was spliced out. */
  lemma {:induction false} BuildIncludeFree(root: Fields, tokens: seq<string>, raw: map<string, Value>, fuel: nat, render: string -> string)
    ensures BuildSpec(root, tokens, raw, fuel, render).Ok? ==> IncludeFree(BuildSpec(root, tokens, raw, fuel, render).value.steps)
    decreases fuel, 4
  {
    match Walk(Obj(root), tokens, [])
    case Err(_) =>
    case Ok(w) =>
      var full := Join(w.names, " ");
      var items := StepItems(StepsOf(w.node), full);
      if items.Ok? {
        CompiledIncludeFree(root, items.value, fuel, render);
      }
  }

  lemma {:induction false} CompiledIncludeFree(root: Fields, items: seq<Value>, fuel: nat, render: string -> string)
    ensures CompiledSpec(root, items, fuel, render).Ok? ==> IncludeFree(CompiledSpec(root, items, fuel, render).value)
    decreases fuel, 3
  {
    ItemsIncludeFree(root, items, 0, fuel, render);
    var flat := ItemsSpec(root, items, 0, fuel, render);
    if flat.Ok? {
      NumberedFromNums(flat.value, 0);
    }
  }

  lemma {:induction false} ItemsIncludeFree(root: Fields, items: seq<Value>, i: nat, fuel: nat, render: string -> string)
    requires i <= |items|
    ensures ItemsSpec(root, items, i, fuel, render).Ok? ==> IncludeFree(ItemsSpec(root, items, i, fuel, render).value)
    decreases fuel, 2, |items| - i
  {
    if i < |items| {
      ContributionIncludeFree(root, items[i], fuel, render);
      ItemsIncludeFree(root, items, i + 1, fuel, render);
      var c := Contribution(root, items[i], fuel, render);
      var more := ItemsSpec(root, items, i + 1, fuel, render);
      if c.Ok? && more.Ok? {
        assert ItemsSpec(root, items, i, fuel, render).value == c.value + more.value;
      }
    }
  }

  lemma {:induction false} ContributionIncludeFree(root: Fields, item: Value, fuel: nat, render: string -> string)
    ensures Contribution(root, item, fuel, render).Ok? ==> IncludeFree(Contribution(root, item, fuel, render).value)
    decreases fuel, 1
  {
    var inc := IncludeOf(NormalizeStep(item));
    if Truthy(inc) && inc.Str? {
      IncludedIncludeFree(root, inc.s, fuel, render);
    }
  }

  lemma {:induction false} IncludedIncludeFree(root: Fields, template: string, fuel: nat, render: string -> string)
    ensures IncludedSpec(root, template, fuel, render).Ok? ==> IncludeFree(IncludedSpec(root, template, fuel, render).value)
    decreases fuel, 0
  {
    if fuel > 0 {
      var inner := BuildSpec(root, Split(render(template), ' '), map[], fuel - 1, render);
      if inner.Ok? {
        ItemsIncludeFree(root, Objs(inner.value.steps), 0, fuel - 1, render);
      }
    }
  }

  /** Already compiled steps, fed back to addSteps, come out as they went in. */
  lemma {:induction false} ItemsPassThrough(root: Fields, steps: seq<Step>, i: nat, fuel: nat, render: string -> string)
    requires i <= |steps| && IncludeFree(steps)
    ensures ItemsSpec(root, Objs(steps), i, fuel, render) == Ok(steps[i..])
    decreases |steps| - i
  {
    ObjsAt(steps);
    if i < |steps| {
      ItemsPassThrough(root, steps, i + 1, fuel, render);
      assert Contribution(root, Obj(steps[i]), fuel, render) == Ok([steps[i]]);
      assert [steps[i]] + steps[i + 1..] == steps[i..];
    } else {
      assert steps[i..] == [];
    }
  }

  /** `Objs(steps)[k]` is the object of `steps[k]`. */
  lemma {:induction false} ObjsAt(steps: seq<Step>)
    ensures forall k :: 0 <= k < |steps| ==> Objs(steps)[k] == Obj(steps[k])
  {
    if steps != [] {
      ObjsAt(steps[1..]);
      forall k | 0 < k < |steps|
        ensures Objs(steps)[k] == Obj(steps[k])
      {
        assert Objs(steps)[k] == Objs(steps[1..])[k - 1];
      }
    }
  }

  /**
   * An `include` step is replaced by the steps of the command its rendered name
   * builds to, taken from the root configuration; addSteps renumbers them in place.
   */
  lemma IncludeSplices(root: Fields, item: Value, fuel: nat, render: string -> string)
    requires fuel > 0
    requires var inc := IncludeOf(NormalizeStep(item)); inc.Str? && inc.s != ""
    requires var inner := BuildSpec(root, Split(render(IncludeOf(NormalizeStep(item)).s), ' '), map[], fuel - 1, render);
             inner.Ok? && !Truthy(Get(inner.value.options, "help"))
    ensures Contribution(root, item, fuel, render)
         == Ok(BuildSpec(root, Split(render(IncludeOf(NormalizeStep(item)).s), ' '), map[], fuel - 1, render).value.steps)
  {
    var step := NormalizeStep(item);
    var inc := IncludeOf(step);
    var tokens := Split(render(inc.s), ' ');
    var inner := BuildSpec(root, tokens, map[], fuel - 1, render);
    IncludeContributes(root, item, fuel, render);
    BuildIncludeFree(root, tokens, map[], fuel - 1, render);
    ItemsPassThrough(root, inner.value.steps, 0, fuel - 1, render);
    DropNothing(inner.value.steps);
  }

  /** A step with a non-empty string `include` contributes the items of the command it builds to. */
  lemma IncludeContributes(root: Fields, item: Value, fuel: nat, render: string -> string)
    requires fuel > 0
    requires var inc := IncludeOf(NormalizeStep(item)); inc.Str? && inc.s != ""
    requires var inner := BuildSpec(root, Split(render(IncludeOf(NormalizeStep(item)).s), ' '), map[], fuel - 1, render);
             inner.Ok? && !Truthy(Get(inner.value.options, "help"))
    ensures var inner := BuildSpec(root, Split(render(IncludeOf(NormalizeStep(item)).s), ' '), map[], fuel - 1, render);
            Contribution(root, item, fuel, render) == ItemsSpec(root, Objs(inner.value.steps), 0, fuel - 1, render)
  {
    assert Contribution(root, item, fuel, render) == IncludedSpec(root, IncludeOf(NormalizeStep(item)).s, fuel, render);
  }

  /** The configuration of the include example in test/command_test.js: `foo` runs a step, then includes `bar`. */
  const Hello: Step := [("exec", Str("echo hello"))]
  const World: Step := [("exec", Str("echo world"))]
  const FooSteps: seq<Value> := [Obj(Hello), Obj([("include", Str("bar"))])]
  const BarSteps: seq<Value> := [Obj(World)]
  const FooBar: Fields := [("foo", Obj([("steps", Arr(FooSteps))])), ("bar", Obj([("steps", Arr(BarSteps))]))]

  /** A template rendering that leaves the include name as written. */
  function Verbatim(template: string): string {
    template
  }

  lemma SplitBar()
    ensures Split("bar", ' ') == ["bar"]
  {
    var w := "bar";
    assert w[0] == 'b' && w[1..] == "ar";
    assert "ar"[0] == 'a' && "ar"[1..] == "r";
    assert "r"[0] == 'r' && "r"[1..] == "";
    assert [""][1..] == [] && ['r'] + "" == "r";
    assert Split("r", ' ') == ["r"];
    assert ["r"][1..] == [] && ['a'] + "r" == "ar";
    assert Split("ar", ' ') == ["ar"];
    assert ["ar"][1..] == [] && ['b'] + "ar" == "bar";
  }

  /** A plain step without `include` contributes itself. */
  lemma PlainContribution(fields: Step, fuel: nat)
    requires |fields| == 1 && fields[0].0 == "exec"
    ensures Contribution(FooBar, Obj(fields), fuel, Verbatim) == Ok([fields])
  {
    assert fields[1..] == [];
    assert Lookup(fields, "include") == Undef;
    assert IncludeOf(NormalizeStep(Obj(fields))) == Undef;
  }

  /** `bar` builds to its one step, numbered 1. */
  lemma BarExample(fuel: nat)
    ensures var r := BuildSpec(FooBar, ["bar"], map[], fuel, Verbatim);
            r.Ok? && !Truthy(Get(r.value.options, "help"))
            && r.value.steps == [World + [("num", Num(1))]]
  {
    var node := Obj([("steps", Arr(BarSteps))]);
    assert Lookup(FooBar, "bar") == node by {
      assert FooBar[1..] == [("bar", node)];
    }
    AppendNothing(["bar"]);
    PlainContribution(World, fuel);
    assert ItemsSpec(FooBar, BarSteps, 1, fuel, Verbatim) == Ok([]);
    AppendNothing([World]);
    assert ItemsSpec(FooBar, BarSteps, 0, fuel, Verbatim) == Ok([World]);
    assert Set(World, "num", Num(1)) == World + [("num", Num(1))] by {
      assert World[1..] == [];
    }
    assert NumberedFrom([World], 0) == [World + [("num", Num(1))]];
    BuildStopsAtCommand(FooBar, [], "bar", [], map[], fuel, Verbatim);
    TranslatedOptionsReads(map[], |OPTIONS|, 0);
  }

  /** `foo` compiles to its own step followed by the step of `bar`, numbered 1 and 2. */
  lemma IncludeExample(fuel: nat)
    requires fuel >= 1
    ensures var r := BuildSpec(FooBar, ["foo"], map[], fuel, Verbatim);
            r.Ok? && r.value.steps == [Hello + [("num", Num(1))], World + [("num", Num(2))]]
  {
    AppendNothing(["foo"]);
    var world := World + [("num", Num(1))];
    IncludeBar(fuel);
    IncludeFooSteps(fuel, world);
    BuildStopsAtCommand(FooBar, [], "foo", [], map[], fuel, Verbatim);
  }

  /** foo's include item contributes the numbered step of `bar`. */
  lemma IncludeBar(fuel: nat)
    requires fuel >= 1
    ensures Contribution(FooBar, FooSteps[1], fuel, Verbatim) == Ok([World + [("num", Num(1))]])
  {
    SplitBar();
    BarExample(fuel - 1);
    IncludeSplices(FooBar, FooSteps[1], fuel, Verbatim);
  }

  /** The numbering of foo's flattened steps. */
  lemma IncludeFooSteps(fuel: nat, world: Step)
    requires world == World + [("num", Num(1))]
    requires Contribution(FooBar, FooSteps[1], fuel, Verbatim) == Ok([world])
    ensures CompiledSpec(FooBar, FooSteps, fuel, Verbatim) == Ok([Hello + [("num", Num(1))], World + [("num", Num(2))]])
  {
    PlainContribution(Hello, fuel);
    assert ItemsSpec(FooBar, FooSteps, 2, fuel, Verbatim) == Ok([]);
    AppendNothing([world]);
    assert ItemsSpec(FooBar, FooSteps, 1, fuel, Verbatim) == Ok([world]);
    assert [Hello] + [world] == [Hello, world];
    assert ItemsSpec(FooBar, FooSteps, 0, fuel, Verbatim) == Ok([Hello, world]);
    assert Set(Hello, "num", Num(1)) == Hello + [("num", Num(1))] by {
      assert Hello[1..] == [];
    }
    assert Set(world, "num", Num(2)) == World + [("num", Num(2))] by {
      assert world[1..][1..] == [];
    }
    assert NumberedFrom([Hello, world], 0) == [Hello + [("num", Num(1))], World + [("num", Num(2))]] by {
      assert [Hello, world][1..] == [world];
    }
  }

  /** An array-like step object whose `length` is the string "2", under command `cmd`. */
  const ArrayLike: Fields := [("length", Str("2")), ("0", Str("echo a")), ("1", Str("echo b"))]
  const ArrayLikeRoot: Fields := [("cmd", Obj([("steps", Obj(ArrayLike))]))]

  /** `cmd` compiles the two indexed entries, numbered 1 and 2. */
  lemma ArrayLikeExample(fuel: nat)
    ensures var r := BuildSpec(ArrayLikeRoot, ["cmd"], map[], fuel, Verbatim);
            r.Ok? && r.value.steps == [[("exec", Str("echo a")), ("num", Num(1))], [("exec", Str("echo b")), ("num", Num(2))]]
  {
    assert Lookup(ArrayLikeRoot, "cmd") == Obj([("steps", Obj(ArrayLike))]);
    AppendNothing(["cmd"]);
    ArrayLikeItems();
    ArrayLikeCompiled(fuel);
    BuildStopsAtCommand(ArrayLikeRoot, [], "cmd", [], map[], fuel, Verbatim);
    TranslatedOptionsReads(map[], |OPTIONS|, 0);
  }

  /** The `length` "2" reads as two entries, `steps[0]` and `steps[1]`. */
  lemma ArrayLikeItems()
    ensures StepItems(Obj(ArrayLike), "cmd") == Ok([Str("echo a"), Str("echo b")])
  {
    assert StringToNumber("2") == Some(2);
    StepItemsArrayLike(ArrayLike, "cmd", 2);
    assert NatToString(0) == "0" && NatToString(1) == "1";
    assert Lookup(ArrayLike, "0") == Str("echo a") && Lookup(ArrayLike, "1") == Str("echo b");
    var got := StepItems(Obj(ArrayLike), "cmd").value;
    assert got[0] == Str("echo a") && got[1] == Str("echo b");
    assert got == [Str("echo a"), Str("echo b")];
  }

  /** The two string entries compile to two exec steps numbered 1 and 2. */
  lemma ArrayLikeCompiled(fuel: nat)
    ensures CompiledSpec(ArrayLikeRoot, [Str("echo a"), Str("echo b")], fuel, Verbatim)
            == Ok([[("exec", Str("echo a")), ("num", Num(1))], [("exec", Str("echo b")), ("num", Num(2))]])
  {
    var items := [Str("echo a"), Str("echo b")];
    var a, b := [("exec", Str("echo a"))], [("exec", Str("echo b"))];
    assert Lookup(a, "include") == Undef && Lookup(b, "include") == Undef;
    assert Contribution(ArrayLikeRoot, items[0], fuel, Verbatim) == Ok([a]);
    assert Contribution(ArrayLikeRoot, items[1], fuel, Verbatim) == Ok([b]);
    assert ItemsSpec(ArrayLikeRoot, items, 2, fuel, Verbatim) == Ok([]);
    AppendNothing([b]);
    assert ItemsSpec(ArrayLikeRoot, items, 1, fuel, Verbatim) == Ok([b]);
    assert [a] + [b] == [a, b];
    assert ItemsSpec(ArrayLikeRoot, items, 0, fuel, Verbatim) == Ok([a, b]);
    assert Set(a, "num", Num(1)) == a + [("num", Num(1))] by {
      assert a[1..] == [];
    }
    assert Set(b, "num", Num(2)) == b + [("num", Num(2))] by {
      assert b[1..] == [];
    }
    assert NumberedFrom([a, b], 0) == [a + [("num", Num(1))], b + [("num", Num(2))]] by {
      assert [a, b][1..] == [b];
    }
    assert a + [("num", Num(1))] == [("exec", Str("echo a")), ("num", Num(1))];
    assert b + [("num", Num(2))] == [("exec", Str("echo b")), ("num", Num(2))];
  }
}
