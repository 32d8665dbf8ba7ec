/**
 * `setup_option`: the plugin's `-fplugin-arg-<name>-<key>[=<value>]` arguments.
 * `verbose-decl` takes 0, 1 or 2 and sets the verbosity handed to the
 * printable-name hook (1 by default); `disable-version-check` takes no value
 * and turns the GCC version check off. The first bad argument is reported and
 * ends the parse.
 */
module Options {
  import opened Basics

  /** One plugin argument; `value` is `None` when the argument had no `=`. */
  datatype PluginArg = PluginArg(key: string, value: Option<string>)

  datatype Settings = Settings(declVerbosity: int, versionCheck: bool)

  /** The diagnostic `setup_option` issues before it returns false. */
  datatype OptionError =
    | MissingArgument(key: string)
    | BadVerbosity(key: string)
    | UnexpectedArgument(key: string)
    | UnrecognizedOption(key: string)

  const VerboseDecl := "verbose-decl"
  const DisableVersionCheck := "disable-version-check"

  /** The verbosity a `verbose-decl` value selects; only the exact strings `0`, `1`, `2` do. */
  function VerbosityOf(v: string): (r: Option<int>)
    ensures r.Some? ==> 0 <= r.value <= 2 && |v| == 1 && v[0] as int - 48 == r.value
    ensures |v| == 1 && '0' <= v[0] <= '2' ==> r.Some?
  {
    if v == "0" then Some(0) else if v == "1" then Some(1) else if v == "2" then Some(2) else None
  }

  predicate Accepted(a: PluginArg)
  {
    || (a.key == VerboseDecl && a.value.Some? && VerbosityOf(a.value.value).Some?)
    || (a.key == DisableVersionCheck && a.value.None?)
  }

  /** The diagnostic for an argument that is not accepted. */
  function Rejection(a: PluginArg): (e: OptionError)
    requires !Accepted(a)
    ensures e.key == a.key
    ensures e.MissingArgument? <==> a.key == VerboseDecl && a.value.None?
    ensures e.BadVerbosity? <==> a.key == VerboseDecl && a.value.Some?
    ensures e.UnexpectedArgument? <==> a.key == DisableVersionCheck
    ensures e.UnrecognizedOption? <==> a.key != VerboseDecl && a.key != DisableVersionCheck
  {
    if a.key == VerboseDecl then
      if a.value.None? then MissingArgument(a.key) else BadVerbosity(a.key)
    else if a.key == DisableVersionCheck then UnexpectedArgument(a.key)
    else UnrecognizedOption(a.key)
  }

  /** The verbosity the last accepted `verbose-decl` chose, or the default 1. */
  function LastVerbosity(args: seq<PluginArg>): (v: int)
    ensures 0 <= v <= 2
  {
    if args == [] then 1
    else
      var a := args[|args| - 1];
      if a.key == VerboseDecl && a.value.Some? && VerbosityOf(a.value.value).Some? then
        VerbosityOf(a.value.value).value
      else LastVerbosity(args[..|args| - 1])
  }

  /** Without any `verbose-decl` argument the verbosity stays the default 1. */
  lemma {:induction false} DefaultVerbosity(args: seq<PluginArg>)
    requires forall i :: 0 <= i < |args| ==> args[i].key != VerboseDecl
    ensures LastVerbosity(args) == 1
  {
    if args != [] {
      DefaultVerbosity(args[..|args| - 1]);
    }
  }

  predicate DisablesCheck(args: seq<PluginArg>)
  {
    exists a :: a in args && a.key == DisableVersionCheck
  }

  /** The position of the first argument that is not accepted, if any. */
  function FirstRejected(args: seq<PluginArg>): (k: Option<nat>)
    ensures k.Some? ==> k.value < |args| && !Accepted(args[k.value])
    ensures k.Some? ==> forall j :: 0 <= j < k.value ==> Accepted(args[j])
    ensures k.None? ==> forall j :: 0 <= j < |args| ==> Accepted(args[j])
  {
    if args == [] then None
    else if !Accepted(args[0]) then Some(0)
    else
      match FirstRejected(args[1..])
      case None => None
      case Some(k) => Some(k + 1)
  }

  /** The first rejected position is the one before which every argument was accepted. */
  lemma {:induction false} FirstRejectedAt(args: seq<PluginArg>, i: nat)
    requires i < |args| && !Accepted(args[i])
    requires forall j :: 0 <= j < i ==> Accepted(args[j])
    ensures FirstRejected(args) == Some(i)
  {
    if i > 0 {
      assert Accepted(args[0]);
      var rest := args[1..];
      assert rest[i - 1] == args[i];
      assert forall j :: 0 <= j < i - 1 ==> rest[j] == args[j + 1];
      FirstRejectedAt(rest, i - 1);
    }
  }

  /**
   * `setup_option`: the result is a success exactly when no argument is
   * rejected, and its settings come from the last `verbose-decl` and any
   * `disable-version-check`; otherwise it is the diagnostic for the first
   * argument that is not accepted.
   */
  method SetupOption(args: seq<PluginArg>) returns (r: Result<Settings, OptionError>)
    ensures r.Success? <==> FirstRejected(args).None?
    ensures r.Success? ==> r.value == Settings(LastVerbosity(args), !DisablesCheck(args))
    ensures r.Failure? ==> FirstRejected(args).Some? && r.error == Rejection(args[FirstRejected(args).value])
  {
    var verbosity := 1;
    var versionCheck := true;
    var i := 0;
    while i < |args|
      invariant 0 <= i <= |args|
      invariant forall j :: 0 <= j < i ==> Accepted(args[j])
      invariant verbosity == LastVerbosity(args[..i])
      invariant versionCheck == !DisablesCheck(args[..i])
    {
      var a := args[i];
      assert args[..i + 1][..i] == args[..i];
      assert args[..i + 1] == args[..i] + [a];
      if !Accepted(a) {
        FirstRejectedAt(args, i);
      }
      if a.key == VerboseDecl {
        if a.value.None? {
          return Failure(MissingArgument(a.key));
        }
        if a.value.value == "0" {
          verbosity := 0;
        } else if a.value.value == "1" {
          verbosity := 1;
        } else if a.value.value == "2" {
          verbosity := 2;
        } else {
          return Failure(BadVerbosity(a.key));
        }
      } else if a.key == DisableVersionCheck {
        if a.value.Some? {
          return Failure(UnexpectedArgument(a.key));
        }
        versionCheck := false;
      } else {
        return Failure(UnrecognizedOption(a.key));
      }
      i := i + 1;
    }
    assert args[..i] == args;
    return Success(Settings(verbosity, versionCheck));
  }
}
