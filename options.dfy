/**
 * The OPTIONS table of lib/options.js: every command accepts these flags.
 * The table holds no logic; it is read by the resolver (to translate the
 * flags given on the command line) and by the help layout.
 */
module OptionTable {

  /** One entry: its short letter, the name of its argument and its description ("" when absent). */
  datatype Details = Details(short: string, arg: string, desc: string)

  /** The table, in declaration order. */
  const OPTIONS: seq<(string, Details)> := [
    ("help",        Details("h", "",     "Output usage information")),
    ("interactive", Details("i", "",     "Confirm each step before executing it")),
    ("dry-run",     Details("d", "",     "Output all steps but do not execute them")),
    ("step",        Details("s", "step", "Specify a single step to execute")),
    ("begin",       Details("b", "step", "Specify a step to begin at")),
    ("end",         Details("e", "step", "Specify a step to stop after")),
    ("version",     Details("v", "",     "Output the contrib version number"))
  ]
}
