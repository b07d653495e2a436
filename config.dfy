/**
 * lib/config.js: the configuration normaliser and the command predicates.
 *
 * `normalize` walks the keys of a configuration object in order and builds a
 * new object: top-level `project` and `meta` pass through, top-level string and
 * array shorthands become `{steps: [...]}`, a `steps` key below the top level is
 * normalised and marks its object `isCommand_`, and plain-object children are
 * normalised recursively, marking their parent `isMultiCommand_` when they are
 * command-bearing themselves.
 */
module Config {
  import opened Values
  import opened Errors

  /**
   * lib/config.js:99 throws `new config.ConfigError(...)`, but the module defines
   * no ConfigError: the engine raises this TypeError instead of a configuration error.
   */
  const NotAConstructor := "config.ConfigError is not a constructor"

  /** The reserved marker keys that normalize writes. */
  predicate IsMarker(key: string) {
    key == "isCommand_" || key == "isMultiCommand_"
  }

  // ---------------------------------------------------------------------------
  // normalizeSteps (lib/config.js:94-129)
  // ---------------------------------------------------------------------------

  /** One step of normalizeSteps: a string is an exec, an array is [exec, desc, id]. */
  function NormalizeStepItem(step: Value): Value
  {
    match step
    case Str(_) => Obj([("exec", step)])
    case Arr(a) =>
      var withExec := [("exec", Index(a, 0))];
      var withDesc := if Truthy(Index(a, 1)) then withExec + [("desc", a[1])] else withExec;
      Obj(if Truthy(Index(a, 2)) then withDesc + [("id", a[2])] else withDesc)
    case _ => step
  }

  /**
   * What a normalised step reads as: a string `s` is `{exec: s}`, an array `a` has
   * `exec: a[0]` and carries `desc`/`id` only when `a[1]`/`a[2]` are truthy, and
   * anything else is left as it is.
   */
  lemma NormalizeStepItemReads(step: Value)
    ensures step.Str? ==> NormalizeStepItem(step) == Obj([("exec", step)])
    ensures step.Arr? ==> var r := NormalizeStepItem(step);
      && r.Obj?
      && Lookup(r.fields, "exec") == Index(step.items, 0)
      && Lookup(r.fields, "desc") == (if Truthy(Index(step.items, 1)) then step.items[1] else Undef)
      && Lookup(r.fields, "id") == (if Truthy(Index(step.items, 2)) then step.items[2] else Undef)
      && ("desc" in Keys(r.fields) <==> Truthy(Index(step.items, 1)))
      && ("id" in Keys(r.fields) <==> Truthy(Index(step.items, 2)))
    ensures !step.Str? && !step.Arr? ==> NormalizeStepItem(step) == step
  {
    if step.Arr? {
      var a := step.items;
      var withExec := [("exec", Index(a, 0))];
      var withDesc := if Truthy(Index(a, 1)) then withExec + [("desc", a[1])] else withExec;
      var all := if Truthy(Index(a, 2)) then withDesc + [("id", a[2])] else withDesc;
      assert NormalizeStepItem(step) == Obj(all);
      assert all[0] == ("exec", Index(a, 0));
      assert Lookup(all[1..], "exec") == Undef by { LookupMissing(all[1..], "exec"); }
      assert Lookup(withDesc, "id") == Undef by { LookupMissing(withDesc, "id"); }
      if Truthy(Index(a, 2)) {
        LookupAppend(withDesc, "id", a[2]);
        LookupAppendOther(withDesc, "id", a[2], "desc");
      }
      if Truthy(Index(a, 1)) {
        LookupAppend(withExec, "desc", a[1]);
      } else {
        LookupMissing(withExec, "desc");
      }
      KeysAppend(withExec, "desc", if Truthy(Index(a, 1)) then a[1] else Undef);
      KeysAppend(withDesc, "id", if Truthy(Index(a, 2)) then a[2] else Undef);
    }
  }

  lemma {:induction false} LookupMissing(fields: seq<(string, Value)>, key: string)
    requires forall j :: 0 <= j < |fields| ==> fields[j].0 != key
    ensures Lookup(fields, key) == Undef
  {
    if fields != [] {
      LookupMissing(fields[1..], key);
    }
  }

  lemma {:induction false} LookupAppend(fields: seq<(string, Value)>, key: string, v: Value)
    requires forall j :: 0 <= j < |fields| ==> fields[j].0 != key
    ensures Lookup(fields + [(key, v)], key) == v
  {
    if fields != [] {
      assert (fields + [(key, v)])[1..] == fields[1..] + [(key, v)];
      LookupAppend(fields[1..], key, v);
    }
  }

  lemma {:induction false} LookupAppendOther(fields: seq<(string, Value)>, key: string, v: Value, other: string)
    requires other != key
    ensures Lookup(fields + [(key, v)], other) == Lookup(fields, other)
  {
    if fields != [] {
      assert (fields + [(key, v)])[1..] == fields[1..] + [(key, v)];
      LookupAppendOther(fields[1..], key, v, other);
    }
  }

  lemma KeysAppend(fields: seq<(string, Value)>, key: string, v: Value)
    ensures Keys(fields + [(key, v)]) == Keys(fields) + [key]
  {
    assert Keys(fields + [(key, v)])[|fields|] == key;
  }

  /** The list normalizeSteps returns for an array of steps. */
  function NormalizedSteps(items: seq<Value>): (r: seq<Value>)
    ensures |r| == |items|
  {
    seq(|items|, i requires 0 <= i < |items| => NormalizeStepItem(items[i]))
  }

  /** A normalised step list is a fixed point: applying normalizeSteps twice is applying it once. */
  lemma NormalizeStepsIdempotent(items: seq<Value>)
    ensures NormalizedSteps(NormalizedSteps(items)) == NormalizedSteps(items)
  {
    var once := NormalizedSteps(items);
    forall i | 0 <= i < |items|
      ensures NormalizeStepItem(once[i]) == once[i]
    {
      assert once[i] == NormalizeStepItem(items[i]);
    }
  }

  /** lib/config.js:94-129: throws on anything but an array, otherwise maps each step in order. */
  method NormalizeSteps(steps: Value) returns (r: Result<seq<Value>>)
    ensures !steps.Arr? ==> r == Err(TypeError(NotAConstructor))
    ensures steps.Arr? ==> r.Ok? && |r.value| == |steps.items|
    ensures steps.Arr? ==> forall i :: 0 <= i < |steps.items| ==> r.value[i] == NormalizeStepItem(steps.items[i])
    ensures steps.Arr? ==> r == Ok(NormalizedSteps(steps.items))
  {
    if !steps.Arr? {
      return Err(TypeError(NotAConstructor));
    }
    var newSteps: seq<Value> := [];
    var i := 0;
    while i < |steps.items|
      invariant 0 <= i <= |steps.items|
      invariant |newSteps| == i
      invariant forall k :: 0 <= k < i ==> newSteps[k] == NormalizeStepItem(steps.items[k])
    {
      var step := steps.items[i];
      if step.Str? {
        newSteps := newSteps + [Obj([("exec", step)])];
      } else if step.Arr? {
        var tempStep := [("exec", Index(step.items, 0))];
        if Truthy(Index(step.items, 1)) {
          tempStep := tempStep + [("desc", step.items[1])];
        }
        if Truthy(Index(step.items, 2)) {
          tempStep := tempStep + [("id", step.items[2])];
        }
        newSteps := newSteps + [Obj(tempStep)];
      } else {
        newSteps := newSteps + [step];
      }
      i := i + 1;
    }
    r := Ok(newSteps);
    assert newSteps == NormalizedSteps(steps.items);
  }

  // ---------------------------------------------------------------------------
  // normalize (lib/config.js:39-92), as functions
  // ---------------------------------------------------------------------------

  /** Whether normalize recurses into the value stored under `key`. */
  predicate Recursed(key: string, val: Value, isTop: bool) {
    val.Obj? && !(isTop && (key == "project" || key == "meta")) && !(!isTop && key == "steps")
  }

  /** A normalised child that makes its parent a multi-command. */
  predicate HasMarker(v: Value) {
    v.Obj? && (Truthy(Lookup(v.fields, "isCommand_")) || Truthy(Lookup(v.fields, "isMultiCommand_")))
  }

  /** The value normalize stores under `key` for the input value `val`. */
  function EntryValue(key: string, val: Value, isTop: bool): Result<Value>
    decreases Depth(val), 2
  {
    if isTop && (key == "project" || key == "meta") then Ok(val)
    else if isTop && val.Str? then Ok(Obj([("steps", Arr(NormalizedSteps([val])))]))
    else if isTop && val.Arr? then Ok(Obj([("steps", Arr(NormalizedSteps(val.items)))]))
    else if !isTop && key == "steps" then
      (if val.Arr? then Ok(Arr(NormalizedSteps(val.items))) else Err(TypeError(NotAConstructor)))
    else if val.Obj? then
      (match NormalizeObject(val, false)
       case Ok(child) => Ok(Obj(child))
       case Err(e) => Err(e))
    else Ok(val)
  }

  /** One iteration of the forEach: store the entry, then set the marker it implies. */
  function NormalizeEntry(acc: seq<(string, Value)>, key: string, val: Value, isTop: bool): Result<seq<(string, Value)>>
    decreases Depth(val), 3
  {
    match EntryValue(key, val, isTop)
    case Err(e) => Err(e)
    case Ok(nv) =>
      var stored := Set(acc, key, nv);
      if !isTop && key == "steps" then Ok(Set(stored, "isCommand_", Bool(true)))
      else if Recursed(key, val, isTop) && HasMarker(nv) then Ok(Set(stored, "isMultiCommand_", Bool(true)))
      else Ok(stored)
  }

  /** The object built after the first `n` entries `_.forEach` visits in `v`. */
  function NormalizePrefix(v: Value, n: nat, isTop: bool): Result<seq<(string, Value)>>
    requires v.Obj? && n <= |Visited(v.fields)|
    decreases Depth(v), 0, n
  {
    if n == 0 then Ok([])
    else
      match NormalizePrefix(v, n - 1, isTop)
      case Err(e) => Err(e)
      case Ok(acc) =>
        var (key, val) := Visited(v.fields)[n - 1];
        VisitedDepth(v.fields, n - 1);
        NormalizeEntry(acc, key, val, isTop)
  }

  /** `config.normalize(v, parent)`; `isTop` is `!parent`. */
  function NormalizeObject(v: Value, isTop: bool): Result<seq<(string, Value)>>
    requires v.Obj?
    decreases Depth(v), 1
  {
    NormalizePrefix(v, |Visited(v.fields)|, isTop)
  }

  /** A thrown error ends the forEach: once a prefix fails, every longer prefix fails the same way. */
  lemma {:induction false} PrefixErrorSticks(v: Value, i: nat, n: nat, isTop: bool)
    requires v.Obj? && i <= n <= |Visited(v.fields)|
    requires NormalizePrefix(v, i, isTop).Err?
    ensures NormalizePrefix(v, n, isTop) == NormalizePrefix(v, i, isTop)
    decreases n
  {
    if n > i {
      PrefixErrorSticks(v, i, n - 1, isTop);
    }
  }

  // ---------------------------------------------------------------------------
  // normalize, as the forEach loop of the source
  // ---------------------------------------------------------------------------

  /** lib/config.js:39-92: the object normalize builds, entry by entry of `_.forEach`. */
  method Normalize(v: Value, isTop: bool) returns (r: Result<seq<(string, Value)>>)
    requires v.Obj?
    ensures r == NormalizeObject(v, isTop)
    decreases Depth(v), 1
  {
    var entries := Visited(v.fields);
    var newConfig: seq<(string, Value)> := [];
    var i := 0;
    while i < |entries|
      invariant 0 <= i <= |entries|
      invariant NormalizePrefix(v, i, isTop) == Ok(newConfig)
    {
      var (key, val) := entries[i];
      VisitedDepth(v.fields, i);
      assert NormalizePrefix(v, i + 1, isTop) == NormalizeEntry(newConfig, key, val, isTop);
      if isTop && (key == "project" || key == "meta") {
        // project and meta pass through as they are
        assert EntryValue(key, val, isTop) == Ok(val) && !Recursed(key, val, isTop);
        newConfig := Set(newConfig, key, val);
      } else if isTop && val.Str? {
        // a top-level string is a single-step command
        var steps := NormalizeSteps(Arr([val]));
        assert steps.value == [Obj([("exec", val)])];
        assert EntryValue(key, val, isTop) == Ok(Obj([("steps", Arr(steps.value))])) && !Recursed(key, val, isTop);
        newConfig := Set(newConfig, key, Obj([("steps", Arr(steps.value))]));
      } else if isTop && val.Arr? {
        // a top-level array is a list of steps
        var steps := NormalizeSteps(val);
        assert EntryValue(key, val, isTop) == Ok(Obj([("steps", Arr(steps.value))])) && !Recursed(key, val, isTop);
        newConfig := Set(newConfig, key, Obj([("steps", Arr(steps.value))]));
      } else if !isTop && key == "steps" {
        var steps := NormalizeSteps(val);
        assert EntryValue(key, val, isTop) == if steps.Ok? then Ok(Arr(steps.value)) else Err(steps.error);
        if steps.Err? {
          r := Err(steps.error);
          PrefixErrorSticks(v, i + 1, |entries|, isTop);
          return;
        }
        newConfig := Set(newConfig, key, Arr(steps.value));
        newConfig := Set(newConfig, "isCommand_", Bool(true));
      } else if val.Obj? {
        var child := Normalize(val, false);
        assert EntryValue(key, val, isTop) == if child.Ok? then Ok(Obj(child.value)) else Err(child.error);
        if child.Err? {
          r := Err(child.error);
          PrefixErrorSticks(v, i + 1, |entries|, isTop);
          return;
        }
        newConfig := Set(newConfig, key, Obj(child.value));
        if HasMarker(Obj(child.value)) {
          newConfig := Set(newConfig, "isMultiCommand_", Bool(true));
        }
      } else {
        // everything else passes through
        assert EntryValue(key, val, isTop) == Ok(val) && !Recursed(key, val, isTop);
        newConfig := Set(newConfig, key, val);
      }
      i := i + 1;
    }
    r := Ok(newConfig);
  }

  // ---------------------------------------------------------------------------
  // What normalize produces
  // ---------------------------------------------------------------------------

  /** A successful prefix stored every entry it went through successfully. */
  lemma {:induction false} PrefixEntriesOk(v: Value, n: nat, isTop: bool, j: nat)
    requires v.Obj? && j < n <= |Visited(v.fields)|
    requires NormalizePrefix(v, n, isTop).Ok?
    ensures EntryValue(Visited(v.fields)[j].0, Visited(v.fields)[j].1, isTop).Ok?
    decreases n
  {
    if j < n - 1 {
      PrefixEntriesOk(v, n - 1, isTop, j);
    }
  }

  /** Every non-marker key holds the value normalize computed for its own entry. */
  lemma {:induction false} PrefixLookup(v: Value, n: nat, isTop: bool, j: nat)
    requires v.Obj? && j < n <= |Visited(v.fields)| && UniqueKeys(Visited(v.fields))
    requires NormalizePrefix(v, n, isTop).Ok?
    requires !IsMarker(Visited(v.fields)[j].0)
    ensures EntryValue(Visited(v.fields)[j].0, Visited(v.fields)[j].1, isTop)
         == Ok(Lookup(NormalizePrefix(v, n, isTop).value, Visited(v.fields)[j].0))
    decreases n
  {
    var prev := NormalizePrefix(v, n - 1, isTop);
    var acc := prev.value;
    var (key, val) := Visited(v.fields)[n - 1];
    var kj := Visited(v.fields)[j].0;
    var nv := EntryValue(key, val, isTop).value;
    var stored := Set(acc, key, nv);
    if j == n - 1 {
      LookupSetSame(acc, key, nv);
    } else {
      PrefixLookup(v, n - 1, isTop, j);
      LookupSetOther(acc, key, nv, kj);
    }
    LookupSetOther(stored, "isCommand_", Bool(true), kj);
    LookupSetOther(stored, "isMultiCommand_", Bool(true), kj);
  }

  /** A key that is neither in the input nor a marker is absent from the output. */
  lemma {:induction false} PrefixLookupAbsent(v: Value, n: nat, isTop: bool, key: string)
    requires v.Obj? && n <= |Visited(v.fields)|
    requires NormalizePrefix(v, n, isTop).Ok?
    requires !IsMarker(key) && forall j :: 0 <= j < n ==> Visited(v.fields)[j].0 != key
    ensures Lookup(NormalizePrefix(v, n, isTop).value, key) == Undef
    decreases n
  {
    if n > 0 {
      var prev := NormalizePrefix(v, n - 1, isTop);
      PrefixLookupAbsent(v, n - 1, isTop, key);
      var acc := prev.value;
      var (k, val) := Visited(v.fields)[n - 1];
      var nv := EntryValue(k, val, isTop).value;
      LookupSetOther(acc, k, nv, key);
      LookupSetOther(Set(acc, k, nv), "isCommand_", Bool(true), key);
      LookupSetOther(Set(acc, k, nv), "isMultiCommand_", Bool(true), key);
    }
  }

  /** The isCommand_ marker is set exactly when a `steps` key was met below the top level. */
  lemma {:induction false} PrefixCommandMarker(v: Value, n: nat, isTop: bool)
    requires v.Obj? && n <= |Visited(v.fields)|
    requires NormalizePrefix(v, n, isTop).Ok?
    requires forall j :: 0 <= j < |Visited(v.fields)| ==> Visited(v.fields)[j].0 != "isCommand_"
    ensures Truthy(Lookup(NormalizePrefix(v, n, isTop).value, "isCommand_"))
        <==> !isTop && exists j :: 0 <= j < n && Visited(v.fields)[j].0 == "steps"
    decreases n
  {
    if n > 0 {
      var prev := NormalizePrefix(v, n - 1, isTop);
      PrefixCommandMarker(v, n - 1, isTop);
      var acc := prev.value;
      var (key, val) := Visited(v.fields)[n - 1];
      var nv := EntryValue(key, val, isTop).value;
      var stored := Set(acc, key, nv);
      LookupSetOther(acc, key, nv, "isCommand_");
      if !isTop && key == "steps" {
        LookupSetSame(stored, "isCommand_", Bool(true));
      } else {
        LookupSetOther(stored, "isMultiCommand_", Bool(true), "isCommand_");
      }
    }
  }

  /** Entry `j` of `w` is a plain-object child that normalize recursed into and that came back marked. */
  predicate MarkedChild(w: seq<(string, Value)>, j: nat, isTop: bool)
    requires j < |w|
  {
    Recursed(w[j].0, w[j].1, isTop) && EntryValue(w[j].0, w[j].1, isTop).Ok?
    && HasMarker(EntryValue(w[j].0, w[j].1, isTop).value)
  }

  /** The isMultiCommand_ marker is set exactly when some recursed child came back command-bearing. */
  lemma {:induction false} PrefixMultiMarker(v: Value, n: nat, isTop: bool)
    requires v.Obj? && n <= |Visited(v.fields)|
    requires NormalizePrefix(v, n, isTop).Ok?
    requires forall j :: 0 <= j < |Visited(v.fields)| ==> Visited(v.fields)[j].0 != "isMultiCommand_"
    ensures Truthy(Lookup(NormalizePrefix(v, n, isTop).value, "isMultiCommand_"))
        <==> exists j :: 0 <= j < n && MarkedChild(Visited(v.fields), j, isTop)
    decreases n
  {
    if n > 0 {
      var w := Visited(v.fields);
      var prev := NormalizePrefix(v, n - 1, isTop);
      PrefixMultiMarker(v, n - 1, isTop);
      var acc := prev.value;
      var (key, val) := w[n - 1];
      var nv := EntryValue(key, val, isTop).value;
      var stored := Set(acc, key, nv);
      LookupSetOther(acc, key, nv, "isMultiCommand_");
      var marked := Truthy(Lookup(NormalizePrefix(v, n, isTop).value, "isMultiCommand_"));
      if !isTop && key == "steps" {
        LookupSetOther(stored, "isCommand_", Bool(true), "isMultiCommand_");
        assert !MarkedChild(w, n - 1, isTop);
      } else if Recursed(key, val, isTop) && HasMarker(nv) {
        LookupSetSame(stored, "isMultiCommand_", Bool(true));
        assert MarkedChild(w, n - 1, isTop);
      } else {
        assert !MarkedChild(w, n - 1, isTop);
      }
      if exists j :: 0 <= j < n && MarkedChild(w, j, isTop) {
        var j :| 0 <= j < n && MarkedChild(w, j, isTop);
        assert marked;
      }
    }
  }

  /**
   * Top level (lib/config.js:44-65), for each entry `_.forEach` visits:
   * `project` and `meta` pass through verbatim, a string becomes a
   * one-exec-step command and an array a command with those steps.
   */
  lemma NormalizeTopLevel(fields: seq<(string, Value)>, i: nat)
    requires UniqueKeys(fields) && i < |Visited(fields)| && !IsMarker(Visited(fields)[i].0)
    requires NormalizeObject(Obj(fields), true).Ok?
    ensures var r := NormalizeObject(Obj(fields), true).value;
            var (key, val) := Visited(fields)[i];
            && (key == "project" || key == "meta" ==> Lookup(r, key) == val)
            && (key != "project" && key != "meta" && val.Str? ==>
                  Lookup(r, key) == Obj([("steps", Arr([Obj([("exec", val)])]))]))
            && (key != "project" && key != "meta" && val.Arr? ==>
                  Lookup(r, key) == Obj([("steps", Arr(NormalizedSteps(val.items)))]))
  {
    VisitedUnique(fields);
    PrefixLookup(Obj(fields), |Visited(fields)|, true, i);
    if Visited(fields)[i].1.Str? {
      assert NormalizedSteps([Visited(fields)[i].1]) == [Obj([("exec", Visited(fields)[i].1)])];
    }
  }

  /** A run of digits is none of the word keys normalize reacts to. */
  lemma DigitsAreNoWords(key: string)
    requires IsDigits(key)
    ensures key != "steps" && key != "project" && key != "meta" && !IsMarker(key)
  {
    assert '0' <= key[0] <= '9';
  }

  /** No entry `_.forEach` visits in `fields` is named by a marker key. */
  lemma VisitedNoMarkers(fields: seq<(string, Value)>)
    requires forall j :: 0 <= j < |fields| ==> !IsMarker(fields[j].0)
    ensures forall j :: 0 <= j < |Visited(fields)| ==> !IsMarker(Visited(fields)[j].0)
  {
    VisitedKeys(fields);
    forall j | 0 <= j < |Visited(fields)| && ArrayLikeLength(fields).Some?
      ensures !IsMarker(Visited(fields)[j].0)
    {
      DigitsAreNoWords(Visited(fields)[j].0);
    }
  }

  /**
   * Below the top level (lib/config.js:67-73): the isCommand_ marker is set
   * exactly when the object has a `steps` key and `_.forEach` walks it by its
   * keys; an array-like object is walked by index and never meets `steps`.
   */
  lemma NormalizeNestedMarker(fields: seq<(string, Value)>)
    requires forall j :: 0 <= j < |fields| ==> !IsMarker(fields[j].0)
    requires NormalizeObject(Obj(fields), false).Ok?
    ensures Truthy(Lookup(NormalizeObject(Obj(fields), false).value, "isCommand_"))
        <==> ArrayLikeLength(fields).None? && exists j :: 0 <= j < |fields| && fields[j].0 == "steps"
  {
    VisitedNoMarkers(fields);
    PrefixCommandMarker(Obj(fields), |Visited(fields)|, false);
    VisitedKeys(fields);
    if ArrayLikeLength(fields).Some? {
      forall j | 0 <= j < |Visited(fields)|
        ensures Visited(fields)[j].0 != "steps"
      {
        DigitsAreNoWords(Visited(fields)[j].0);
      }
    }
  }

  /**
   * Below the top level (lib/config.js:67-70): a visited `steps` key must hold
   * an array, and comes back as the normalised list of its steps.
   */
  lemma NormalizeNestedSteps(fields: seq<(string, Value)>, j: nat)
    requires UniqueKeys(fields) && j < |Visited(fields)| && Visited(fields)[j].0 == "steps"
    requires NormalizeObject(Obj(fields), false).Ok?
    ensures Visited(fields)[j].1.Arr?
    ensures Lookup(NormalizeObject(Obj(fields), false).value, "steps")
         == Arr(NormalizedSteps(Visited(fields)[j].1.items))
  {
    VisitedUnique(fields);
    PrefixLookup(Obj(fields), |Visited(fields)|, false, j);
  }

  /**
   * Below the top level, an object without a `steps` key gets none, and
   * neither does an array-like one, whose `steps` is never visited.
   */
  lemma NormalizeNestedNoSteps(fields: seq<(string, Value)>)
    requires ArrayLikeLength(fields).Some? || forall j :: 0 <= j < |fields| ==> fields[j].0 != "steps"
    requires NormalizeObject(Obj(fields), false).Ok?
    ensures Lookup(NormalizeObject(Obj(fields), false).value, "steps") == Undef
  {
    VisitedKeys(fields);
    forall j | 0 <= j < |Visited(fields)| && ArrayLikeLength(fields).Some?
      ensures Visited(fields)[j].0 != "steps"
    {
      DigitsAreNoWords(Visited(fields)[j].0);
    }
    PrefixLookupAbsent(Obj(fields), |Visited(fields)|, false, "steps");
  }

  /** Below the top level (lib/config.js:87-88): strings, arrays and other non-objects pass through. */
  lemma NormalizeNestedPassThrough(fields: seq<(string, Value)>, j: nat)
    requires UniqueKeys(fields) && j < |Visited(fields)| && !IsMarker(Visited(fields)[j].0)
    requires Visited(fields)[j].0 != "steps" && !Visited(fields)[j].1.Obj?
    requires NormalizeObject(Obj(fields), false).Ok?
    ensures Lookup(NormalizeObject(Obj(fields), false).value, Visited(fields)[j].0) == Visited(fields)[j].1
  {
    VisitedUnique(fields);
    PrefixLookup(Obj(fields), |Visited(fields)|, false, j);
  }

  /**
   * Below the top level (lib/config.js:76-84): the object is a multi-command
   * exactly when some visited plain-object child came back marked as a command
   * or a multi-command.
   */
  lemma NormalizeNestedMulti(fields: seq<(string, Value)>)
    requires UniqueKeys(fields) && forall j :: 0 <= j < |fields| ==> !IsMarker(fields[j].0)
    requires NormalizeObject(Obj(fields), false).Ok?
    ensures var r := NormalizeObject(Obj(fields), false).value;
            var w := Visited(fields);
            Truthy(Lookup(r, "isMultiCommand_")) <==>
              exists j :: 0 <= j < |w| && w[j].0 != "steps" && w[j].1.Obj? && HasMarker(Lookup(r, w[j].0))
  {
    var v := Obj(fields);
    var w := Visited(fields);
    var n := |w|;
    var r := NormalizeObject(v, false).value;
    VisitedUnique(fields);
    VisitedNoMarkers(fields);
    PrefixMultiMarker(v, n, false);
    forall j | 0 <= j < n
      ensures MarkedChild(w, j, false) <==> w[j].0 != "steps" && w[j].1.Obj? && HasMarker(Lookup(r, w[j].0))
    {
      PrefixLookup(v, n, false, j);
    }
  }

  /**
   * An array-like object (lib/config.js:43, lodash treating a valid `length` as
   * an array's) is normalised index by index: every word key, `steps` and
   * `length` included, is dropped.
   */
  lemma NormalizeArrayLikeDrops(fields: seq<(string, Value)>, isTop: bool, key: string)
    requires ArrayLikeLength(fields).Some? && NormalizeObject(Obj(fields), isTop).Ok?
    requires !IsDigits(key) && !IsMarker(key)
    ensures Lookup(NormalizeObject(Obj(fields), isTop).value, key) == Undef
  {
    VisitedKeys(fields);
    PrefixLookupAbsent(Obj(fields), |Visited(fields)|, isTop, key);
  }

  /** In an array-like object, index name `i` holds the value computed for `obj[i]`. */
  lemma NormalizeArrayLikeIndices(fields: seq<(string, Value)>, isTop: bool)
    requires ArrayLikeLength(fields).Some? && NormalizeObject(Obj(fields), isTop).Ok?
    ensures forall i :: 0 <= i < ArrayLikeLength(fields).value ==>
              EntryValue(NatToString(i), Lookup(fields, NatToString(i)), isTop)
              == Ok(Lookup(NormalizeObject(Obj(fields), isTop).value, NatToString(i)))
  {
    var w := Visited(fields);
    VisitedReads(fields);
    VisitedKeys(fields);
    VisitedUnique(fields);
    forall i | 0 <= i < |w|
      ensures EntryValue(w[i].0, w[i].1, isTop) == Ok(Lookup(NormalizeObject(Obj(fields), isTop).value, w[i].0))
    {
      DigitsAreNoWords(w[i].0);
      PrefixLookup(Obj(fields), |w|, isTop, i);
    }
  }

  lemma {:induction false} LookupUnique(fields: seq<(string, Value)>, j: nat)
    requires UniqueKeys(fields) && j < |fields|
    ensures Lookup(fields, fields[j].0) == fields[j].1
  {
    if j > 0 {
      LookupUnique(fields[1..], j - 1);
    }
  }

  // ---------------------------------------------------------------------------
  // The command predicates (lib/config.js:131-150)
  // ---------------------------------------------------------------------------

  /** isSingleCommandConfig: a plain object with truthy `steps`. */
  predicate IsSingleCommandConfig(v: Value) {
    v.Obj? && Truthy(Lookup(v.fields, "steps"))
  }

  /** isMultiCommandConfig: a plain object of which `_.any` visits some single-command child. */
  predicate IsMultiCommandConfig(v: Value) {
    v.Obj? && exists i :: 0 <= i < |Visited(v.fields)| && IsSingleCommandConfig(Visited(v.fields)[i].1)
  }

  /** isCommandConfig: either of the two. */
  predicate IsCommandConfig(v: Value) {
    IsSingleCommandConfig(v) || IsMultiCommandConfig(v)
  }

  /**
   * On a normalised object below the top level, the isCommand_ marker and
   * isSingleCommandConfig agree.
   */
  lemma NormalizedCommandIsSingle(fields: seq<(string, Value)>)
    requires UniqueKeys(fields) && forall j :: 0 <= j < |fields| ==> !IsMarker(fields[j].0)
    requires NormalizeObject(Obj(fields), false).Ok?
    ensures var r := NormalizeObject(Obj(fields), false).value;
            Truthy(Lookup(r, "isCommand_")) <==> IsSingleCommandConfig(Obj(r))
  {
    NormalizeNestedMarker(fields);
    VisitedReads(fields);
    if j :| ArrayLikeLength(fields).None? && 0 <= j < |fields| && fields[j].0 == "steps" {
      NormalizeNestedSteps(fields, j);
    } else {
      NormalizeNestedNoSteps(fields);
    }
  }

  /**
   * At the top level a shorthand command gets no marker: `{a: 'echo'}` is a
   * multi-command config, yet normalize leaves its root unmarked.
   */
  lemma TopLevelShorthandIsUnmarked()
    ensures var r := NormalizeObject(Obj([("a", Str("echo"))]), true);
            r.Ok? && IsMultiCommandConfig(Obj(r.value))
            && !Truthy(Lookup(r.value, "isMultiCommand_"))
  {
    var v := Obj([("a", Str("echo"))]);
    var cmd := Obj([("steps", Arr([Obj([("exec", Str("echo"))])]))]);
    assert NormalizedSteps([Str("echo")]) == [Obj([("exec", Str("echo"))])];
    assert EntryValue("a", Str("echo"), true) == Ok(cmd);
    assert NormalizePrefix(v, 0, true) == Ok([]);
    assert NormalizePrefix(v, 1, true) == NormalizeEntry([], "a", Str("echo"), true);
    assert NormalizeObject(v, true) == Ok([("a", cmd)]);
    assert IsSingleCommandConfig(cmd);
    assert Lookup([("a", cmd)], "length") == Undef;
    assert Visited([("a", cmd)]) == [("a", cmd)];
    assert Lookup([("a", cmd)], "isMultiCommand_") == Undef;
  }

  /** A command whose step object also carries `length: 1`. */
  const CountedCommand := Obj([("length", Num(1)), ("steps", Arr([Str("echo a")]))])

  /**
   * `{cmd: {length: 1, steps: ['echo a']}}` normalises `cmd` to `{0: undefined}`:
   * its steps are never visited, so neither it nor the root is marked.
   */
  lemma CountedCommandExample()
    ensures NormalizeObject(Obj([("cmd", CountedCommand)]), true) == Ok([("cmd", Obj([("0", Undef)]))])
  {
    var inner := CountedCommand.fields;
    assert ArrayLikeLength(inner) == Some(1);
    assert NatToString(0) == "0";
    assert Lookup(inner, "0") == Undef;
    assert Visited(inner) == [("0", Undef)];
    assert NormalizePrefix(CountedCommand, 0, false) == Ok([]);
    assert NormalizeEntry([], "0", Undef, false) == Ok([("0", Undef)]);
    assert NormalizePrefix(CountedCommand, 1, false) == Ok([("0", Undef)]);
    assert NormalizeObject(CountedCommand, false) == Ok([("0", Undef)]);
    assert EntryValue("cmd", CountedCommand, true) == Ok(Obj([("0", Undef)]));
    assert Lookup([("cmd", CountedCommand)], "length") == Undef;
    var root := Obj([("cmd", CountedCommand)]);
    assert Visited(root.fields) == [("cmd", CountedCommand)];
    assert NormalizePrefix(root, 0, true) == Ok([]);
    assert NormalizeEntry([], "cmd", CountedCommand, true) == Ok([("cmd", Obj([("0", Undef)]))]);
    assert NormalizePrefix(root, 1, true) == Ok([("cmd", Obj([("0", Undef)]))]);
    assert Lookup([("0", Undef)], "isCommand_") == Undef && Lookup([("0", Undef)], "isMultiCommand_") == Undef;
  }

  /** A group with `length: 1` is walked by index by `_.any`: its single-command child is not seen. */
  lemma CountedGroupIsNotMulti()
    ensures !IsMultiCommandConfig(Obj([("length", Num(1)), ("a", Obj([("steps", Arr([Str("echo a")]))]))]))
  {
    var fields := [("length", Num(1)), ("a", Obj([("steps", Arr([Str("echo a")]))]))];
    assert ArrayLikeLength(fields) == Some(1);
    assert NatToString(0) == "0";
    assert Lookup(fields, "0") == Undef;
    assert Visited(fields) == [("0", Undef)];
  }
}
