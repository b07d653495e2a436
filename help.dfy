/**
 * lib/help.js: the aligned lines of the help screen. `getCommandLines` lists
 * the commands of a configuration object, `getOptionLines` the OPTIONS table;
 * both pad every label with `new Array(6 + longest - label.length).join(' ')`
 * so that the descriptions start in one column, five places after the longest
 * label. `getOptionFlags` writes the flags column of one option.
 */
module Help {
  import opened Values
  import opened OptionTable
  import opened Errors
  import Config

  // ---------------------------------------------------------------------------
  // Padding (lib/help.js:76, 98)
  // ---------------------------------------------------------------------------

  /** `new Array(n).join(' ')`: `n` holes, each read as the empty string, between `n - 1` separators. */
  function ArrayJoinBlanks(n: nat): string {
    Join(ElementStrings(seq(n, _ => Undef)), " ")
  }

  /** `n` spaces. */
  function Spaces(n: nat): (s: string)
    ensures |s| == n && forall k :: 0 <= k < n ==> s[k] == ' '
  {
    seq(n, _ => ' ')
  }

  /** Joining `n` empty strings with a space gives `n - 1` spaces. */
  lemma {:induction false} JoinEmpties(n: nat)
    requires n >= 1
    ensures Join(seq(n, _ => ""), " ") == Spaces(n - 1)
  {
    if n > 1 {
      var parts := seq(n, _ => "");
      assert parts[1..] == seq(n - 1, _ => "");
      JoinEmpties(n - 1);
      assert Join(parts, " ") == "" + " " + Spaces(n - 2);
    }
  }

  /** The holes of a fresh array join to empty strings. */
  lemma {:induction false} HolesAreEmpty(n: nat)
    ensures ElementStrings(seq(n, _ => Undef)) == seq(n, _ => "")
  {
    if n > 0 {
      var holes := seq(n, _ => Undef);
      assert holes[1..] == seq(n - 1, _ => Undef);
      HolesAreEmpty(n - 1);
      assert seq(n, _ => "") == [""] + seq(n - 1, _ => "");
    }
  }

  /** The padding of the source is one space fewer than the array it joins. */
  lemma ArrayJoinBlanksIsSpaces(n: nat)
    requires n >= 1
    ensures ArrayJoinBlanks(n) == Spaces(n - 1)
  {
    HolesAreEmpty(n);
    JoinEmpties(n);
  }

  // ---------------------------------------------------------------------------
  // The layout shared by both lists
  // ---------------------------------------------------------------------------

  /** A row of the help screen: the label (command name or flags) and its description. */
  type Row = (string, string)

  /** `Math.max` over the label lengths, starting from 0, as the addCmd and `_.each` loops keep it. */
  function Longest(rows: seq<Row>): (m: nat)
    ensures forall k :: 0 <= k < |rows| ==> |rows[k].0| <= m
    ensures rows == [] ==> m == 0
    ensures rows != [] ==> exists k :: 0 <= k < |rows| && |rows[k].0| == m
  {
    if rows == [] then 0
    else
      var m := Longest(rows[..|rows| - 1]);
      var last := |rows[|rows| - 1].0|;
      assert forall k :: 0 <= k < |rows| - 1 ==> rows[k] == rows[..|rows| - 1][k];
      if m < last then last else m
  }

  /** One line: the label, its padding to column `longest + 5`, the description. */
  function Line(row: Row, longest: nat): string
    requires |row.0| <= longest
  {
    row.0 + ArrayJoinBlanks(6 + longest - |row.0|) + row.1
  }

  /** The lines of a list of rows, each padded against the longest label. */
  function Layout(rows: seq<Row>): (lines: seq<string>)
    ensures |lines| == |rows|
  {
    var longest := Longest(rows);
    seq(|rows|, k requires 0 <= k < |rows| => Line(rows[k], longest))
  }

  /** One line, cut into its three columns. */
  lemma LineColumns(row: Row, longest: nat)
    requires |row.0| <= longest
    ensures var line := Line(row, longest);
            && |line| == longest + 5 + |row.1|
            && line[..|row.0|] == row.0
            && (forall c :: |row.0| <= c < longest + 5 ==> line[c] == ' ')
            && line[longest + 5..] == row.1
  {
    var name, desc := row.0, row.1;
    ArrayJoinBlanksIsSpaces(6 + longest - |name|);
    var pad := Spaces(5 + longest - |name|);
    var line := name + pad + desc;
    assert Line(row, longest) == line;
    assert line[..|name|] == name;
    assert line[longest + 5..] == desc;
    forall c | |name| <= c < longest + 5
      ensures line[c] == ' '
    {
      assert line[c] == pad[c - |name|];
    }
  }

  /**
   * Every line is its label, then spaces up to column `longest + 5` (the source
   * pads to one less than the array length it asks for), then its description:
   * all descriptions start in the same column.
   */
  lemma LayoutColumns(rows: seq<Row>)
    ensures var lines := Layout(rows);
            var col := Longest(rows) + 5;
            forall k :: 0 <= k < |rows| ==>
              && |lines[k]| == col + |rows[k].1|
              && lines[k][..|rows[k].0|] == rows[k].0
              && (forall c :: |rows[k].0| <= c < col ==> lines[k][c] == ' ')
              && lines[k][col..] == rows[k].1
  {
    var longest := Longest(rows);
    forall k | 0 <= k < |rows|
      ensures var line := Layout(rows)[k];
              && |line| == longest + 5 + |rows[k].1|
              && line[..|rows[k].0|] == rows[k].0
              && (forall c :: |rows[k].0| <= c < longest + 5 ==> line[c] == ' ')
              && line[longest + 5..] == rows[k].1
    {
      LineColumns(rows[k], longest);
    }
  }

  // ---------------------------------------------------------------------------
  // getCommandLines (lib/help.js:50-81)
  // ---------------------------------------------------------------------------

  /** An entry the command list shows: not `project`, a command config, not private. */
  predicate Listed(entry: (string, Value)) {
    entry.0 != "project" && Config.IsCommandConfig(entry.1) && !Truthy(Lookup(entry.1.fields, "private"))
  }

  /** The row of a listed entry: a multi-command gets ` [command]`, a missing description is ''. */
  function CommandRow(entry: (string, Value)): Row
    requires Listed(entry)
  {
    var (name, val) := entry;
    var shown := if Config.IsMultiCommandConfig(val) then name + " [command]" else name;
    (shown, OrEmpty(Lookup(val.fields, "desc")))
  }

  /** `desc || ''`, as the line's string concatenation converts it. */
  function OrEmpty(desc: Value): string {
    if Truthy(desc) then ToString(desc) else ""
  }

  /** The rows addCmd collects from the entries of a configuration object, in their order. */
  function CommandRows(config: seq<(string, Value)>): seq<Row> {
    if config == [] then []
    else
      var rest := CommandRows(config[..|config| - 1]);
      var last := config[|config| - 1];
      if Listed(last) then rest + [CommandRow(last)] else rest
  }

  /** Going one entry further adds the row of that entry, if it is listed. */
  lemma CommandRowsNext(config: seq<(string, Value)>, i: nat)
    requires i < |config|
    ensures CommandRows(config[..i + 1])
         == CommandRows(config[..i]) + (if Listed(config[i]) then [CommandRow(config[i])] else [])
  {
    assert config[..i + 1][..i] == config[..i];
  }

  /** Math.max, one label further. */
  lemma LongestNext(rows: seq<Row>, row: Row)
    ensures Longest(rows + [row]) == if Longest(rows) < |row.0| then |row.0| else Longest(rows)
  {
    assert (rows + [row])[..|rows|] == rows;
  }

  /** The second loop of both lists: one more row padded against the longest label. */
  lemma LayoutNext(rows: seq<Row>, j: nat)
    requires j < |rows|
    ensures Layout(rows)[..j + 1] == Layout(rows)[..j] + [Line(rows[j], Longest(rows))]
  {
    LayoutAt(rows, j);
    PrefixNext(Layout(rows), j);
  }

  /** Line `k` of a layout is row `k` padded against the longest label. */
  lemma LayoutAt(rows: seq<Row>, k: nat)
    requires k < |rows|
    ensures Layout(rows)[k] == Line(rows[k], Longest(rows))
  {
  }

  /** The engine's message for `new Array(NaN)`. */
  const InvalidArrayLength := "Invalid array length"

  /**
   * A listed entry whose name stays a number: `_.each` hands an array-like
   * configuration's index over as a number, and only the ` [command]` suffix
   * turns it into a string.
   */
  predicate NamedByNumber(indexed: bool, entry: (string, Value)) {
    indexed && Listed(entry) && !Config.IsMultiCommandConfig(entry.1)
  }

  /** Some entry of `w` is listed under a numeric name. */
  predicate SomeNamedByNumber(indexed: bool, w: seq<(string, Value)>) {
    exists i :: 0 <= i < |w| && NamedByNumber(indexed, w[i])
  }

  lemma SomeNamedByNumberNext(indexed: bool, w: seq<(string, Value)>, i: nat)
    requires i < |w|
    ensures SomeNamedByNumber(indexed, w[..i + 1]) <==> SomeNamedByNumber(indexed, w[..i]) || NamedByNumber(indexed, w[i])
  {
    if SomeNamedByNumber(indexed, w[..i + 1]) {
      var k :| 0 <= k < i + 1 && NamedByNumber(indexed, w[..i + 1][k]);
      if k < i {
        assert w[..i][k] == w[k];
      }
    }
    if SomeNamedByNumber(indexed, w[..i]) {
      var k :| 0 <= k < i && NamedByNumber(indexed, w[..i][k]);
      assert w[..i + 1][k] == w[k];
    }
    if NamedByNumber(indexed, w[i]) {
      assert w[..i + 1][i] == w[i];
    }
  }

  /**
   * What getCommandLines returns for a configuration object: the laid-out rows
   * of the entries `_.each` visits, unless one row is named by a number. Then
   * its `name.length` is undefined, `longestCmd` becomes NaN, and the padding's
   * `new Array(NaN)` throws a RangeError.
   */
  function CommandLines(config: seq<(string, Value)>): Result<seq<string>> {
    var w := Visited(config);
    if SomeNamedByNumber(ArrayLikeLength(config).Some?, w) then Err(RangeError(InvalidArrayLength))
    else Ok(Layout(CommandRows(w)))
  }

  /**
   * lib/help.js:62-73: the `_.each` loop with addCmd. It collects the rows and
   * `longestCmd`, which is None (NaN) once a row is named by a number.
   */
  method CollectCommands(entries: seq<(string, Value)>, indexed: bool) returns (cmds: seq<Row>, longestCmd: Option<nat>)
    ensures cmds == CommandRows(entries)
    ensures longestCmd == if SomeNamedByNumber(indexed, entries) then None else Some(Longest(cmds))
    ensures longestCmd.None? ==> |cmds| > 0
  {
    longestCmd := Some(0);
    cmds := [];
    for i := 0 to |entries|
      invariant cmds == CommandRows(entries[..i])
      invariant longestCmd == if SomeNamedByNumber(indexed, entries[..i]) then None else Some(Longest(cmds))
      invariant longestCmd.None? ==> |cmds| > 0
    {
      CommandRowsNext(entries, i);
      SomeNamedByNumberNext(indexed, entries, i);
      var name, val := entries[i].0, entries[i].1;
      if name != "project" && Config.IsCommandConfig(val) && !Truthy(Lookup(val.fields, "private")) {
        assert Listed(entries[i]);
        // an index name is a number, whose `length` is undefined
        var nameLength: Option<nat> := if indexed then None else Some(|name|);
        if Config.IsMultiCommandConfig(val) {
          name := name + " [command]";
          nameLength := Some(|name|);
        }
        var row := (name, OrEmpty(Lookup(val.fields, "desc")));
        assert row == CommandRow(entries[i]);
        LongestNext(cmds, row);
        longestCmd := if longestCmd.None? || nameLength.None? then None
                      else if longestCmd.value < nameLength.value then nameLength else longestCmd;
        cmds := cmds + [row];
      } else {
        assert !Listed(entries[i]);
      }
    }
    assert entries[..|entries|] == entries;
  }

  /** lib/help.js:75-79: the second loop, each row padded against the longest name. */
  method PadCommands(cmds: seq<Row>, longestCmd: nat) returns (cmdLines: seq<string>)
    requires longestCmd == Longest(cmds)
    ensures cmdLines == Layout(cmds)
  {
    cmdLines := [];
    for j := 0 to |cmds|
      invariant cmdLines == Layout(cmds)[..j]
    {
      LayoutNext(cmds, j);
      var spaces := ArrayJoinBlanks(6 + longestCmd - |cmds[j].0|);
      cmdLines := cmdLines + [cmds[j].0 + spaces + cmds[j].1];
    }
    assert cmdLines == Layout(cmds);
  }

  /**
   * lib/help.js:50-81: collect the rows and the longest name, then lay the
   * lines out. A NaN `longestCmd` comes with at least one row, whose padding
   * is `new Array(NaN)`.
   */
  method GetCommandLines(config: seq<(string, Value)>) returns (r: Result<seq<string>>)
    ensures r == CommandLines(config)
  {
    var cmds, longestCmd := CollectCommands(Visited(config), ArrayLikeLength(config).Some?);
    match longestCmd
    case None =>
      r := Err(RangeError(InvalidArrayLength));
    case Some(longest) =>
      var cmdLines := PadCommands(cmds, longest);
      r := Ok(cmdLines);
  }

  /** A configuration without an array-like `length`: `_.each` walks its own entries and no name is a number. */
  lemma CommandLinesKeyed(config: seq<(string, Value)>)
    requires ArrayLikeLength(config).None?
    ensures CommandLines(config) == Ok(Layout(CommandRows(config)))
  {
    VisitedReads(config);
  }

  /** `{length: 0, a: {steps: [...]}}`: `_.each` visits no index, so `a` is not listed. */
  lemma EmptyCountedRootListsNothing()
    ensures CommandLines([("length", Num(0)), ("a", Obj([("steps", Arr([Str("echo a")]))]))]) == Ok([])
  {
    var config := [("length", Num(0)), ("a", Obj([("steps", Arr([Str("echo a")]))]))];
    assert ArrayLikeLength(config) == Some(0);
    assert Visited(config) == [];
  }

  /** `{length: 1, 0: {steps: [...]}}`: command 0 is listed under the number 0 and the padding throws. */
  lemma CountedRootThrows()
    ensures CommandLines([("length", Num(1)), ("0", Obj([("steps", Arr([Str("echo a")]))]))])
         == Err(RangeError(InvalidArrayLength))
  {
    var cmd := Obj([("steps", Arr([Str("echo a")]))]);
    var config := [("length", Num(1)), ("0", cmd)];
    assert ArrayLikeLength(config) == Some(1);
    assert NatToString(0) == "0";
    assert Lookup(config, "0") == cmd;
    assert Visited(config) == [("0", cmd)];
    assert Lookup(cmd.fields, "length") == Undef;
    assert Visited(cmd.fields) == cmd.fields;
    assert !Config.IsMultiCommandConfig(cmd);
    assert Config.IsSingleCommandConfig(cmd);
    assert NamedByNumber(true, Visited(config)[0]);
  }

  /**
   * The command list keeps the configuration's order and shows exactly the
   * listed entries: row `j` comes from entry `idx[j]`, the indices increase, and
   * every listed entry has its row.
   */
  lemma {:induction false} CommandRowsOrder(config: seq<(string, Value)>) returns (idx: seq<nat>)
    ensures |idx| == |CommandRows(config)|
    ensures forall j :: 0 <= j < |idx| ==> idx[j] < |config| && Listed(config[idx[j]])
                                           && CommandRows(config)[j] == CommandRow(config[idx[j]])
    ensures forall j, j' :: 0 <= j < j' < |idx| ==> idx[j] < idx[j']
    ensures forall i :: 0 <= i < |config| && Listed(config[i]) ==> i in idx
  {
    if config == [] {
      idx := [];
    } else {
      var n := |config| - 1;
      var front := config[..n];
      var prev := CommandRowsOrder(front);
      var rows, prevRows := CommandRows(config), CommandRows(front);
      if Listed(config[n]) {
        idx := prev + [n];
      } else {
        idx := prev;
      }
      forall j | 0 <= j < |idx|
        ensures idx[j] < |config| && Listed(config[idx[j]]) && rows[j] == CommandRow(config[idx[j]])
      {
        if j < |prev| {
          assert idx[j] == prev[j] && rows[j] == prevRows[j] && config[prev[j]] == front[prev[j]];
        }
      }
      forall i | 0 <= i < |config| && Listed(config[i])
        ensures i in idx
      {
        if i < n {
          assert config[i] == front[i];
          assert i in prev;
        }
      }
    }
  }

  /** A listed name gets the ` [command]` suffix exactly when its config is a multi-command. */
  lemma MultiCommandSuffix(entry: (string, Value))
    requires Listed(entry)
    ensures var shown := CommandRow(entry).0;
            && shown[..|entry.0|] == entry.0
            && (Config.IsMultiCommandConfig(entry.1) <==> |shown| > |entry.0|)
            && (Config.IsMultiCommandConfig(entry.1) ==> shown[|entry.0|..] == " [command]")
  {
  }

  // ---------------------------------------------------------------------------
  // getOptionFlags (lib/help.js:105-119)
  // ---------------------------------------------------------------------------

  /** `-<short>, ` when there is a short letter, `--<name>`, then ` [<arg>]` when there is an argument. */
  function GetOptionFlags(name: string, details: Details): string {
    (if details.short != "" then "-" + details.short + ", " else "")
    + "--" + name
    + (if details.arg != "" then " [" + details.arg + "]" else "")
  }

  /** The option that a flags column describes, read back: short letter, name and argument. */
  function ParseOptionFlags(flags: string): (string, string, string) {
    var (short, rest) := ParseShort(flags);
    var (name, arg) := ParseLong(rest);
    (short, name, arg)
  }

  /** `-<short>, <rest>` gives the short letter and the rest; anything else has no short letter. */
  function ParseShort(flags: string): (string, string) {
    if |flags| >= 2 && flags[0] == '-' && flags[1] != '-' then
      var p := IndexOf(flags, ',');
      (flags[1..p], flags[Min(p + 2, |flags|)..])
    else ("", flags)
  }

  /** `--<name>` or `--<name> [<arg>]` gives the name and the argument. */
  function ParseLong(rest: string): (string, string) {
    var body := rest[Min(2, |rest|)..];
    var q := IndexOf(body, ' ');
    if q == |body| then (body, "")
    else (body[..q], if q + 3 <= |body| then body[q + 2..|body| - 1] else "")
  }

  function Min(a: nat, b: nat): nat {
    if a < b then a else b
  }

  /** The index of the first `c` in `s`, or `|s|` when there is none. */
  function IndexOf(s: string, c: char): (k: nat)
    ensures k <= |s| && (k < |s| ==> s[k] == c)
    ensures forall j :: 0 <= j < k ==> s[j] != c
  {
    if s == [] then 0
    else if s[0] == c then 0
    else 1 + IndexOf(s[1..], c)
  }

  /** When `s` has no `c`, IndexOf reaches the end. */
  lemma IndexOfMissing(s: string, c: char)
    requires c !in s
    ensures IndexOf(s, c) == |s|
  {
  }

  /** When `s[k]` is the first `c` in `s`, IndexOf finds it at `k`. */
  lemma {:induction false} IndexOfAt(s: string, c: char, k: nat)
    requires k < |s| && s[k] == c
    requires forall j :: 0 <= j < k ==> s[j] != c
    ensures IndexOf(s, c) == k
  {
    if k > 0 {
      assert s[0] != c;
      IndexOfAt(s[1..], c, k - 1);
    }
  }

  /** The short-letter part reads back. */
  lemma ParseShortFlags(short: string, rest: string)
    requires short != "" ==> short[0] != '-' && ',' !in short
    requires |rest| >= 2 && rest[..2] == "--"
    ensures ParseShort((if short != "" then "-" + short + ", " else "") + rest) == (short, rest)
  {
    if short != "" {
      var flags := "-" + short + ", " + rest;
      assert forall j :: 0 <= j < |short| ==> flags[1 + j] == short[j];
      assert flags[|short| + 1] == ',';
      IndexOfAt(flags, ',', |short| + 1);
      assert flags[1..|short| + 1] == short;
      assert forall j :: 0 <= j < |rest| ==> flags[|short| + 3 + j] == rest[j];
      assert flags[|short| + 3..] == rest;
    } else {
      assert "" + rest == rest;
      assert rest[1] == rest[..2][1] == '-';
    }
  }

  /** The long part of a flag that takes an argument reads back. */
  lemma ParseLongArg(name: string, arg: string)
    requires ' ' !in name && arg != ""
    ensures ParseLong("--" + name + (" [" + arg + "]")) == (name, arg)
  {
    var rest := "--" + name + (" [" + arg + "]");
    var body := rest[2..];
    assert |body| == |name| + 3 + |arg|;
    assert forall j :: 0 <= j < |name| ==> body[j] == name[j];
    assert body[|name|] == ' ';
    IndexOfAt(body, ' ', |name|);
    assert body[..|name|] == name;
    assert forall j :: 0 <= j < |arg| ==> body[|name| + 2 + j] == arg[j];
    assert body[|name| + 2..|body| - 1] == arg;
  }

  /** The long part of a flag without an argument reads back. */
  lemma ParseLongPlain(name: string)
    requires ' ' !in name
    ensures ParseLong("--" + name) == (name, "")
  {
    var rest := "--" + name;
    assert rest[2..] == name;
    IndexOfMissing(name, ' ');
  }

  /**
   * The flags column determines its option: parsing it gives back the short
   * letter, the name and the argument, whenever the short letter is not a dash
   * and has no comma and the name has no space.
   */
  lemma OptionFlagsParse(name: string, details: Details)
    requires details.short != "" ==> details.short[0] != '-' && ',' !in details.short
    requires ' ' !in name
    ensures ParseOptionFlags(GetOptionFlags(name, details)) == (details.short, name, details.arg)
  {
    var head := if details.short != "" then "-" + details.short + ", " else "";
    var tail := if details.arg != "" then " [" + details.arg + "]" else "";
    var rest := "--" + name + tail;
    AppendAssoc(head, "--", name);
    AppendAssoc(head, "--" + name, tail);
    assert rest[..2] == "--";
    ParseShortFlags(details.short, rest);
    if details.arg != "" {
      ParseLongArg(name, details.arg);
    } else {
      AppendNothing("--" + name);
      ParseLongPlain(name);
    }
  }

  /** `step` takes an argument: its flags read `-s, --step [step]`. */
  lemma StepFlags()
    ensures GetOptionFlags(OPTIONS[3].0, OPTIONS[3].1) == "-s, --step [step]"
  {
  }

  // ---------------------------------------------------------------------------
  // getOptionLines (lib/help.js:83-103)
  // ---------------------------------------------------------------------------

  /** The rows `_.each(OPTIONS, ...)` collects: the flags of each option and its description. */
  function OptionRows(table: seq<(string, Details)>): (rows: seq<Row>)
    ensures |rows| == |table|
  {
    seq(|table|, k requires 0 <= k < |table| => (GetOptionFlags(table[k].0, table[k].1), table[k].1.desc))
  }

  /** Going one option further adds that option's row. */
  lemma OptionRowsNext(table: seq<(string, Details)>, i: nat)
    requires i < |table|
    ensures OptionRows(table[..i + 1]) == OptionRows(table[..i]) + [(GetOptionFlags(table[i].0, table[i].1), table[i].1.desc)]
  {
  }

  /**
   * lib/help.js:83-103: the option lines, one per entry of the option table, in
   * table order. The source reads the module constant OPTIONS (lib/options.js);
   * here it is a parameter, and OptionLinesFollowTable states the lines of OPTIONS.
   */
  method GetOptionLines(options: seq<(string, Details)>) returns (optLines: seq<string>)
    ensures optLines == Layout(OptionRows(options))
  {
    var opts: seq<Row> := [];
    var longestOpt := 0;
    for i := 0 to |options|
      invariant opts == OptionRows(options[..i])
      invariant longestOpt == Longest(opts)
    {
      OptionRowsNext(options, i);
      var (name, val) := options[i];
      var flags := GetOptionFlags(name, val);
      var row := (flags, val.desc);
      LongestNext(opts, row);
      longestOpt := if longestOpt < |flags| then |flags| else longestOpt;
      opts := opts + [row];
    }
    assert options[..|options|] == options;
    optLines := [];
    for j := 0 to |opts|
      invariant optLines == Layout(opts)[..j]
    {
      LayoutNext(opts, j);
      var spaces := ArrayJoinBlanks(6 + longestOpt - |opts[j].0|);
      optLines := optLines + [opts[j].0 + spaces + opts[j].1];
    }
    assert optLines == Layout(opts)[..|opts|];
  }

  /**
   * One line per OPTIONS entry, in table order, each starting with that
   * option's flags; the widest flags, `-b, --begin [step]`, are 18 characters,
   * so every description starts at column 23.
   */
  lemma OptionLinesFollowTable()
    ensures var lines := Layout(OptionRows(OPTIONS));
            && |lines| == |OPTIONS|
            && Longest(OptionRows(OPTIONS)) == 18
            && forall k :: 0 <= k < |OPTIONS| ==>
                 var flags := GetOptionFlags(OPTIONS[k].0, OPTIONS[k].1);
                 lines[k][..|flags|] == flags && lines[k][23..] == OPTIONS[k].1.desc
  {
    var rows := OptionRows(OPTIONS);
    OptionFlagsWidest(rows);
    LayoutColumns(rows);
  }

  /** The widest flags entry is `-b, --begin [step]`, at 18 characters. */
  lemma OptionFlagsWidest(rows: seq<Row>)
    requires rows == OptionRows(OPTIONS)
    ensures Longest(rows) == 18
  {
    assert |rows[4].0| == 18;
    assert forall k :: 0 <= k < |rows| ==> |rows[k].0| <= 18;
  }
}
