/**
 * Command groups of the command scheduler. A command is initialised once,
 * executed repeatedly until it reports that it is finished, and then ended
 * (with `interrupted` telling whether it was cut short). A sequential group
 * runs its children one after another; a race group runs them side by side
 * until one of them finishes.
 */
module Commands {

  /** The calls a command can receive. */
  datatype Call = InitCall | ExecuteCall | EndCall(interrupted: bool)

  /**
   * A child command, seen from the outside: it records the calls it receives,
   * and whether it is finished is an arbitrary function of that history.
   */
  class Command {
    var log: seq<Call>
    const isInterruptable: bool
    const finishedAfter: seq<Call> -> bool

    constructor(isInterruptable: bool, finishedAfter: seq<Call> -> bool)
      ensures log == []
      ensures this.isInterruptable == isInterruptable && this.finishedAfter == finishedAfter
    {
      log := [];
      this.isInterruptable := isInterruptable;
      this.finishedAfter := finishedAfter;
    }

    predicate IsFinished()
      reads this
    {
      finishedAfter(log)
    }

    method Init()
      modifies this
      ensures log == old(log) + [InitCall]
    {
      log := log + [InitCall];
    }

    method Execute()
      modifies this
      ensures log == old(log) + [ExecuteCall]
    {
      log := log + [ExecuteCall];
    }

    method End(interrupted: bool)
      modifies this
      ensures log == old(log) + [EndCall(interrupted)]
    {
      log := log + [EndCall(interrupted)];
    }
  }

  /** No command occurs twice in the list. */
  predicate Distinct(commands: seq<Command>) {
    forall i, j :: 0 <= i < j < |commands| ==> commands[i] != commands[j]
  }

  /** Whether any of the commands reports that it is finished. */
  function AnyFinished(commands: seq<Command>): (r: bool)
    reads commands
    ensures r <==> exists i :: 0 <= i < |commands| && commands[i].IsFinished()
  {
    if commands == [] then false
    else commands[0].IsFinished() || AnyFinished(commands[1..])
  }

  /** Whether every command in the list can be interrupted. */
  function AllInterruptable(commands: seq<Command>): (r: bool)
    reads commands
    ensures r <==> forall i :: 0 <= i < |commands| ==> commands[i].isInterruptable
  {
    if commands == [] then true
    else commands[0].isInterruptable && AllInterruptable(commands[1..])
  }

  /**
   * Runs its commands in order: `index` is the position of the running
   * command, -1 before the group is initialised and the number of commands
   * once all of them have run.
   */
  class SequentialCommand {
    var commands: seq<Command>
    var index: int
    var isInterruptable: bool

    predicate Valid()
      reads this
    {
      -1 <= index <= |commands| && Distinct(commands)
    }

    /**
     * The primary constructor; its flag defaults to true. (Called with only
     * commands, the source picks `Of` below instead.)
     */
    constructor(commands: seq<Command>, isInterruptable: bool := true)
      requires Distinct(commands)
      ensures Valid()
      ensures this.commands == commands && index == -1 && this.isInterruptable == isInterruptable
    {
      this.commands := commands;
      index := -1;
      this.isInterruptable := isInterruptable;
    }

    /** The group without an explicit flag is interruptable when all of its commands are. */
    constructor Of(commands: seq<Command>)
      requires Distinct(commands)
      ensures Valid()
      ensures this.commands == commands && index == -1
      ensures isInterruptable <==> forall i :: 0 <= i < |commands| ==> commands[i].isInterruptable
    {
      this.commands := commands;
      index := -1;
      isInterruptable := AllInterruptable(commands);
    }

    /**
     * Finished once every command has run. A group that has not been
     * initialised is not finished, even when it has no commands.
     */
    predicate IsFinished()
      reads this
      ensures Valid() ==> (IsFinished() <==> index == |commands|)
      ensures index == -1 ==> !IsFinished()
    {
      index >= |commands|
    }

    /** Appends a command; the group stays interruptable only if the new command is. */
    method Add(command: Command)
      requires Valid() && command !in commands
      modifies this
      ensures Valid()
      ensures commands == old(commands) + [command] && index == old(index)
      ensures isInterruptable == (old(isInterruptable) && command.isInterruptable)
    {
      commands := commands + [command];
      isInterruptable := isInterruptable && command.isInterruptable;
    }

    /**
     * Starts the first command. On an empty group the index is set and then
     * the lookup of the first command fails: `thrown` reports that failure.
     */
    method Init() returns (thrown: bool)
      requires Valid()
      modifies this, commands
      ensures Valid()
      ensures commands == old(commands) && index == 0 && isInterruptable == old(isInterruptable)
      ensures thrown <==> commands == []
      ensures !thrown ==> commands[0].log == old(commands[0].log) + [InitCall]
      ensures forall i :: 0 < i < |commands| ==> commands[i].log == old(commands[i].log)
    {
      index := 0;
      if index >= |commands| {
        return true;
      }
      commands[index].Init();
      thrown := false;
    }

    /**
     * Executes the running command; if it is then finished, ends it and
     * starts the next one. Nothing happens before Init or after the last
     * command.
     */
    method Execute()
      requires Valid()
      modifies this, commands
      ensures Valid()
      ensures commands == old(commands) && isInterruptable == old(isInterruptable)
      ensures old(index) < 0 || old(index) >= |commands| ==>
        index == old(index) && forall j :: 0 <= j < |commands| ==> commands[j].log == old(commands[j].log)
      ensures 0 <= old(index) < |commands| ==>
        var i := old(index);
        var executed := old(commands[i].log) + [ExecuteCall];
        var finished := commands[i].finishedAfter(executed);
        && commands[i].log == (if finished then executed + [EndCall(false)] else executed)
        && index == (if finished then i + 1 else i)
        && (finished && i + 1 < |commands| ==> commands[i + 1].log == old(commands[i + 1].log) + [InitCall])
        && forall j :: 0 <= j < |commands| && j != i && (j != i + 1 || !finished) ==>
             commands[j].log == old(commands[j].log)
    {
      if index < 0 || index >= |commands| {
        return;
      }
      commands[index].Execute();
      if commands[index].IsFinished() {
        commands[index].End(false);
        index := index + 1;
        if index < |commands| {
          commands[index].Init();
        }
      }
    }

    /**
     * Ends the group: when interrupted, the running command is ended as
     * interrupted; otherwise nothing is ended. Interrupting a group whose
     * commands have all run looks up a command past the end: `thrown`
     * reports that failure.
     */
    method End(interrupted: bool) returns (thrown: bool)
      requires Valid()
      modifies commands
      ensures thrown <==> interrupted && index == |commands|
      ensures interrupted && 0 <= index < |commands| ==>
        commands[index].log == old(commands[index].log) + [EndCall(true)]
      ensures forall j :: 0 <= j < |commands| && (j != index || !interrupted) ==>
        commands[j].log == old(commands[j].log)
    {
      if index < 0 {
        return false;
      }
      if interrupted {
        if index >= |commands| {
          return true;
        }
        commands[index].End(true);
      }
      thrown := false;
    }
  }

  /** Before Init the group is not finished, and executing it changes nothing. */
  method ExecuteBeforeInit(group: SequentialCommand)
    requires group.Valid() && group.index == -1
    modifies group, group.commands
    ensures group.commands == old(group.commands)
    ensures !group.IsFinished() && group.index == -1
    ensures forall j :: 0 <= j < |group.commands| ==> group.commands[j].log == old(group.commands[j].log)
  {
    group.Execute();
  }

  /** Runs its commands side by side until one of them finishes. */
  class RaceCommand {
    const isInterruptable: bool
    const commands: seq<Command>

    predicate Valid() {
      Distinct(commands)
    }

    /** The group is interruptable unless told otherwise. */
    constructor(commands: seq<Command>, isInterruptable: bool := true)
      requires Distinct(commands)
      ensures Valid()
      ensures this.isInterruptable == isInterruptable && this.commands == commands
    {
      this.isInterruptable := isInterruptable;
      this.commands := commands;
    }

    /** The race is over as soon as any command is finished. */
    predicate IsFinished()
      reads commands
      ensures IsFinished() <==> exists i :: 0 <= i < |commands| && commands[i].IsFinished()
    {
      AnyFinished(commands)
    }

    /** Initialises every command once. */
    method Init()
      requires Valid()
      modifies commands
      ensures forall j :: 0 <= j < |commands| ==> commands[j].log == old(commands[j].log) + [InitCall]
    {
      var i := 0;
      while i < |commands|
        invariant 0 <= i <= |commands|
        invariant forall j :: 0 <= j < i ==> commands[j].log == old(commands[j].log) + [InitCall]
        invariant forall j :: i <= j < |commands| ==> commands[j].log == old(commands[j].log)
      {
        commands[i].Init();
        i := i + 1;
      }
    }

    /**
     * Executes every command, then ends (not interrupted) exactly those that
     * report being finished after their execution.
     */
    method Execute()
      requires Valid()
      modifies commands
      ensures forall j :: 0 <= j < |commands| ==>
        var executed := old(commands[j].log) + [ExecuteCall];
        commands[j].log == if commands[j].finishedAfter(executed) then executed + [EndCall(false)] else executed
    {
      var i := 0;
      while i < |commands|
        invariant 0 <= i <= |commands|
        invariant forall j :: 0 <= j < i ==> commands[j].log == old(commands[j].log) + [ExecuteCall]
        invariant forall j :: i <= j < |commands| ==> commands[j].log == old(commands[j].log)
      {
        commands[i].Execute();
        i := i + 1;
      }
      var finished := FinishedCommands(commands, true);
      assert forall j :: 0 <= j < |finished| ==> finished[j] in commands;
      EndAll(finished, false);
    }

    /**
     * Ends the race. When it ended normally, only the commands that are not
     * finished are ended, as interrupted; when the race itself is
     * interrupted, every command is ended as interrupted.
     */
    method End(interrupted: bool)
      requires Valid()
      modifies commands
      ensures forall j :: 0 <= j < |commands| ==>
        commands[j].log ==
          if interrupted || !commands[j].finishedAfter(old(commands[j].log)) then old(commands[j].log) + [EndCall(true)]
          else old(commands[j].log)
    {
      var ended := commands;
      if !interrupted {
        ended := FinishedCommands(commands, false);
      }
      assert forall j :: 0 <= j < |ended| ==> ended[j] in commands;
      EndAll(ended, true);
    }
  }

  /**
   * The commands, in order, whose finished state equals `finished` (the
   * filter the race applies before ending any of them).
   */
  method FinishedCommands(commands: seq<Command>, finished: bool) returns (r: seq<Command>)
    requires Distinct(commands)
    ensures Distinct(r)
    ensures forall j :: 0 <= j < |commands| ==> (commands[j] in r <==> commands[j].IsFinished() == finished)
    ensures forall c :: c in r ==> c in commands
  {
    r := [];
    var i := 0;
    while i < |commands|
      invariant 0 <= i <= |commands|
      invariant Distinct(r)
      invariant forall j :: 0 <= j < i ==> (commands[j] in r <==> commands[j].IsFinished() == finished)
      invariant forall j :: i <= j < |commands| ==> commands[j] !in r
      invariant forall c :: c in r ==> c in commands[..i]
    {
      if commands[i].IsFinished() == finished {
        r := r + [commands[i]];
      }
      i := i + 1;
    }
  }

  /** Ends each of the given distinct commands once. */
  method EndAll(ended: seq<Command>, interrupted: bool)
    requires Distinct(ended)
    modifies ended
    ensures forall j :: 0 <= j < |ended| ==> ended[j].log == old(ended[j].log) + [EndCall(interrupted)]
  {
    var k := 0;
    while k < |ended|
      invariant 0 <= k <= |ended|
      invariant forall j :: 0 <= j < k ==> ended[j].log == old(ended[j].log) + [EndCall(interrupted)]
      invariant forall j :: k <= j < |ended| ==> ended[j].log == old(ended[j].log)
    {
      ended[k].End(interrupted);
      k := k + 1;
    }
  }
}
