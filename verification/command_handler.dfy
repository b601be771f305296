/**
 * The command handler: which files of the commands directory are loaded,
 * and the table of commands keyed by name that loading fills. Importing a
 * file and building its command are foreign calls; their outcome per file
 * is an input.
 */
module CommandRegistry {
  import opened Common
  import opened Strings

  /** A built command: its `data.name` and the rest of its definition. */
  datatype Command = Command(name: string, description: string)

  /**
   * What importing a file and building its default export gives: a thrown
   * error, a default export that is not a function (nothing to build), or a
   * command.
   */
  datatype LoadOutcome = Threw | NotAFunction | Built(command: Command)

  /** A command file: a `.ts` or `.js` file whose name does not start with `index`. */
  predicate IsCommandFile(file: string) {
    (EndsWith(file, ".ts") || EndsWith(file, ".js")) && !StartsWith(file, "index")
  }

  /** The directory listing filtered down to the command files, in listing order. */
  function CommandFiles(files: seq<string>): (r: seq<string>)
    ensures |r| <= |files|
    ensures forall f :: f in r <==> f in files && IsCommandFile(f)
  {
    if |files| == 0 then []
    else (if IsCommandFile(files[0]) then [files[0]] else []) + CommandFiles(files[1..])
  }

  /** The table after one file: a built command is stored under its name, replacing any entry there. */
  function Store(table: map<string, Command>, outcome: LoadOutcome): map<string, Command> {
    if outcome.Built? then table[outcome.command.name := outcome.command] else table
  }

  /** The table after loading `files` in order, starting from `table`. */
  function Registered(table: map<string, Command>, files: seq<string>, load: string -> LoadOutcome): map<string, Command>
    decreases |files|
  {
    if |files| == 0 then table
    else Store(Registered(table, files[..|files| - 1], load), load(files[|files| - 1]))
  }

  /** The files whose loading threw, in order; each one is reported. */
  function Failures(files: seq<string>, load: string -> LoadOutcome): (r: seq<string>)
    decreases |files|
    ensures forall f :: f in r <==> f in files && load(f) == Threw
  {
    if |files| == 0 then []
    else Failures(files[..|files| - 1], load) + (if load(files[|files| - 1]) == Threw then [files[|files| - 1]] else [])
  }

  /** Whether `outcome` builds a command named `name`. */
  predicate Builds(outcome: LoadOutcome, name: string) {
    outcome.Built? && outcome.command.name == name
  }

  /**
   * A later file with the same command name replaces the earlier entry: the
   * entry under a name is the command of the last file that builds one with
   * that name.
   */
  lemma {:induction false} LastWins(table: map<string, Command>, files: seq<string>, load: string -> LoadOutcome, name: string, i: int)
    requires 0 <= i < |files| && Builds(load(files[i]), name)
    requires forall j :: i < j < |files| ==> !Builds(load(files[j]), name)
    ensures name in Registered(table, files, load)
    ensures Registered(table, files, load)[name] == load(files[i]).command
    decreases |files|
  {
    var last := |files| - 1;
    if i < last {
      assert files[..last][i] == files[i];
      forall j | i < j < last
        ensures !Builds(load(files[..last][j]), name)
      {
        assert files[..last][j] == files[j];
      }
      LastWins(table, files[..last], load, name, i);
    }
  }

  /** A name no loaded file builds keeps whatever entry the table had before, or stays absent. */
  lemma {:induction false} Untouched(table: map<string, Command>, files: seq<string>, load: string -> LoadOutcome, name: string)
    requires forall j :: 0 <= j < |files| ==> !Builds(load(files[j]), name)
    ensures name in Registered(table, files, load) <==> name in table
    ensures name in table ==> Registered(table, files, load)[name] == table[name]
    decreases |files|
  {
    if |files| > 0 {
      var last := |files| - 1;
      forall j | 0 <= j < last
        ensures !Builds(load(files[..last][j]), name)
      {
        assert files[..last][j] == files[j];
      }
      Untouched(table, files[..last], load, name);
    }
  }

  /**
   * A file that builds nothing, whether it threw or exported no class, has
   * no effect on the table: loading goes on as if it were not there.
   */
  lemma {:induction false} FailureIsolated(table: map<string, Command>, before: seq<string>, file: string, after: seq<string>, load: string -> LoadOutcome)
    requires !load(file).Built?
    ensures Registered(table, before + [file] + after, load) == Registered(table, before + after, load)
    decreases |after|
  {
    if |after| == 0 {
      assert (before + [file] + after)[..|before| + 1 - 1] == before;
      assert before + after == before;
    } else {
      var a := after[..|after| - 1];
      assert (before + [file] + after)[..|before + [file] + after| - 1] == before + [file] + a;
      assert (before + after)[..|before + after| - 1] == before + a;
      FailureIsolated(table, before, file, a, load);
    }
  }

  class CommandHandler {
    /** The commands, keyed by name. */
    var commands: map<string, Command>
    /** The files whose loading failed and was reported, in order. */
    var failures: seq<string>

    constructor()
      ensures commands == map[] && failures == []
    {
      commands := map[];
      failures := [];
    }

    /**
     * `loadCommands`: every command file of the listing `files` is loaded in
     * order; `load` gives the outcome of importing and building each one. A
     * failure is reported and the next file is still loaded.
     */
    method LoadCommands(files: seq<string>, load: string -> LoadOutcome)
      modifies this
      ensures commands == Registered(old(commands), CommandFiles(files), load)
      ensures failures == old(failures) + Failures(CommandFiles(files), load)
    {
      var commandFiles := CommandFiles(files);
      LoadFiles(commandFiles, load);
    }

    /** The loading loop over the command files, in order. */
    method LoadFiles(commandFiles: seq<string>, load: string -> LoadOutcome)
      modifies this
      ensures commands == Registered(old(commands), commandFiles, load)
      ensures failures == old(failures) + Failures(commandFiles, load)
    {
      var i := 0;
      while i < |commandFiles|
        invariant 0 <= i <= |commandFiles|
        invariant commands == Registered(old(commands), commandFiles[..i], load)
        invariant failures == old(failures) + Failures(commandFiles[..i], load)
      {
        var file := commandFiles[i];
        assert commandFiles[..i + 1][..i] == commandFiles[..i];
        match load(file) {
          case Threw =>
            failures := failures + [file];
          case NotAFunction =>
          case Built(instance) =>
            commands := commands[instance.name := instance];
        }
        i := i + 1;
      }
      assert commandFiles[..i] == commandFiles;
    }

    /** `getCommand`: the command stored under `name`, if any. */
    function GetCommand(name: string): (r: Option<Command>)
      reads this
      ensures r.Some? <==> name in commands
      ensures r.Some? ==> r.value == commands[name] && r.value in commands.Values
    {
      if name in commands then Some(commands[name]) else None
    }
  }
}
