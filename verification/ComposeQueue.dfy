/** The per-directory command queue of src/cluster/serviceDeployment.ts: promise chains in a map whose entries come and
    go, seen as a step machine over every interleaving of enqueueing, starting, settling and cleaning up. */
module ComposeQueues {
  import opened Wrappers

  datatype Phase = Waiting | Running | Settled | Cleaned
  {
    predicate Done() {
      Settled? || Cleaned?
    }

    function StepsLeft(): nat {
      match this
      case Waiting => 3
      case Running => 2
      case Settled => 1
      case Cleaned => 0
    }
  }

  /** `after` is the command whose promise this one is chained to; `None` is the resolved promise of a new entry. */
  datatype Command = Command(dir: string, args: seq<string>, after: Option<nat>, phase: Phase, failed: bool)

  /** A map entry: the last chained command and the commands not yet cleaned up. */
  datatype DirState = DirState(main: nat, pending: seq<nat>)

  /** Commands are numbered in the order of enqueueing; `started` logs their starts. */
  datatype Queues = Queues(commands: seq<Command>, byDir: map<string, DirState>, started: seq<nat>)

  datatype Step = Enqueue(dir: string, args: seq<string>) | Start(id: nat) | Settle(id: nat, failed: bool) | Cleanup(id: nat)

  const EMPTY := Queues([], map[], [])

  function Without(ids: seq<nat>, id: nat): seq<nat> {
    if ids == [] then [] else (if ids[0] == id then [] else [ids[0]]) + Without(ids[1..], id)
  }

  function Enqueued(queues: Queues, dir: string, args: seq<string>): Queues {
    var id := |queues.commands|;
    var entry := dir in queues.byDir;
    var after := if entry then Some(queues.byDir[dir].main) else None;
    var pending := if entry then queues.byDir[dir].pending else [];
    Queues(queues.commands + [Command(dir, args, after, Waiting, false)],
           queues.byDir[dir := DirState(id, pending + [id])], queues.started)
  }

  /** A command starts once the promise it is chained to has settled, whether it failed or not. */
  predicate CanStart(queues: Queues, id: nat) {
    && id < |queues.commands| && queues.commands[id].phase.Waiting?
    && match queues.commands[id].after
       case None => true
       case Some(previous) => previous < |queues.commands| && queues.commands[previous].phase.Done()
  }

  predicate InPhase(queues: Queues, id: nat, phase: Phase) {
    id < |queues.commands| && queues.commands[id].phase == phase
  }

  predicate Enabled(queues: Queues, step: Step) {
    match step
    case Enqueue(_, _) => true
    case Start(id) => CanStart(queues, id)
    case Settle(id, _) => InPhase(queues, id, Running)
    case Cleanup(id) => InPhase(queues, id, Settled)
  }

  function WithPhase(queues: Queues, id: nat, phase: Phase): Queues
    requires id < |queues.commands|
  {
    queues.(commands := queues.commands[id := queues.commands[id].(phase := phase)])
  }

  /** The `finally` block: drops the command from the entry that the map holds now, and the entry once it is empty. */
  function CleanedUp(queues: Queues, id: nat): Queues
    requires id < |queues.commands|
  {
    var dir := queues.commands[id].dir;
    var next := WithPhase(queues, id, Cleaned);
    if dir !in queues.byDir then next else
    var pending := Without(queues.byDir[dir].pending, id);
    if pending == [] then next.(byDir := queues.byDir - {dir})
    else next.(byDir := queues.byDir[dir := queues.byDir[dir].(pending := pending)])
  }

  function Next(queues: Queues, step: Step): Queues {
    if !Enabled(queues, step) then queues else
    match step
    case Enqueue(dir, args) => Enqueued(queues, dir, args)
    case Start(id) => WithPhase(queues, id, Running).(started := queues.started + [id])
    case Settle(id, failed) =>
      queues.(commands := queues.commands[id := queues.commands[id].(phase := Settled, failed := failed)])
    case Cleanup(id) => CleanedUp(queues, id)
  }

  function Run(queues: Queues, steps: seq<Step>): Queues
    decreases |steps|
  {
    if steps == [] then queues else Run(Next(queues, steps[0]), steps[1..])
  }

  /** `getComposeState`: the sub-command of the oldest command of the directory that is not cleaned up. */
  function ComposeState(queues: Queues, dir: string): Option<string> {
    if dir in queues.byDir && queues.byDir[dir].pending != [] then
      var id := queues.byDir[dir].pending[0];
      if id < |queues.commands| && queues.commands[id].args != [] then Some(queues.commands[id].args[0]) else None
    else None
  }

  /** The module state of the daemon: the map of promise chains and the commands whose promises it holds. */
  class ComposeRunner {
    var commands: seq<Command>
    var byDir: map<string, DirState>
    var started: seq<nat>

    function State(): Queues
      reads this
    {
      Queues(commands, byDir, started)
    }

    constructor ()
      ensures State() == EMPTY
    {
      commands, byDir, started := [], map[], [];
    }

    /** `runComposeCommand` up to its await. */
    method RunComposeCommand(dir: string, args: seq<string>) returns (id: nat)
      modifies this
      ensures id == |old(commands)| && State() == Next(old(State()), Enqueue(dir, args))
    {
      id := |commands|;
      var state := if dir in byDir then byDir[dir] else DirState(0, []);
      var after := if dir in byDir then Some(state.main) else None;
      commands := commands + [Command(dir, args, after, Waiting, false)];
      state := state.(main := id);
      state := state.(pending := state.pending + [id]);
      byDir := byDir[dir := state];
    }

    /** The promise that the command is chained to has settled. */
    method StartCommand(id: nat)
      requires CanStart(State(), id)
      modifies this
      ensures State() == Next(old(State()), Start(id))
    {
      commands := commands[id := commands[id].(phase := Running)];
      started := started + [id];
    }

    method SettleCommand(id: nat, failed: bool)
      requires InPhase(State(), id, Running)
      modifies this
      ensures State() == Next(old(State()), Settle(id, failed))
    {
      commands := commands[id := commands[id].(phase := Settled, failed := failed)];
    }

    /** The `finally` block of `runComposeCommand`. */
    method FinishCommand(id: nat)
      requires InPhase(State(), id, Settled)
      modifies this
      ensures State() == Next(old(State()), Cleanup(id))
    {
      var dir := commands[id].dir;
      commands := commands[id := commands[id].(phase := Cleaned)];
      if dir in byDir {
        byDir := byDir[dir := byDir[dir].(pending := Without(byDir[dir].pending, id))];
        if byDir[dir].pending == [] {
          byDir := byDir - {dir};
        }
      }
    }
  }

  // Commands of one directory, in the order of enqueueing

  datatype Selection = All | NotWaiting | NotCleaned

  predicate Picks(selection: Selection, dir: string, command: Command) {
    && command.dir == dir
    && match selection
       case All => true
       case NotWaiting => !command.phase.Waiting?
       case NotCleaned => !command.phase.Cleaned?
  }

  function Select(commands: seq<Command>, selection: Selection, dir: string): seq<nat> {
    if commands == [] then [] else
    var last := |commands| - 1;
    Select(commands[..last], selection, dir) + if Picks(selection, dir, commands[last]) then [last] else []
  }

  /** The starts of one directory, in the order in which they happened. */
  function StartsIn(started: seq<nat>, commands: seq<Command>, dir: string): seq<nat> {
    if started == [] then [] else
    var last := |started| - 1;
    var id := started[last];
    StartsIn(started[..last], commands, dir) + if id < |commands| && commands[id].dir == dir then [id] else []
  }

  lemma {:induction false} SelectMembers(commands: seq<Command>, selection: Selection, dir: string)
    ensures forall id: nat :: id in Select(commands, selection, dir) <==> id < |commands| && Picks(selection, dir, commands[id])
  {
    if commands != [] {
      var front := commands[..|commands| - 1];
      SelectMembers(front, selection, dir);
      assert forall id :: 0 <= id < |front| ==> front[id] == commands[id];
    }
  }

  ghost predicate AgreeBut(before: seq<Command>, after: seq<Command>, selection: Selection, dir: string, id: int) {
    && |before| == |after|
    && forall other :: 0 <= other < |before| && other != id ==>
         (Picks(selection, dir, before[other]) <==> Picks(selection, dir, after[other]))
  }

  lemma {:induction false} SelectSame(before: seq<Command>, after: seq<Command>, selection: Selection, dir: string)
    requires AgreeBut(before, after, selection, dir, |before|)
    ensures Select(before, selection, dir) == Select(after, selection, dir)
  {
    hide Picks;
    if before != [] {
      SelectSame(before[..|before| - 1], after[..|after| - 1], selection, dir);
    }
  }

  /** A command that comes to be picked behind all others that are. */
  lemma {:induction false} SelectGains(before: seq<Command>, after: seq<Command>, selection: Selection, dir: string, id: nat)
    requires id < |before| && AgreeBut(before, after, selection, dir, id)
    requires forall later :: id <= later < |before| ==> !Picks(selection, dir, before[later])
    requires Picks(selection, dir, after[id])
    ensures Select(after, selection, dir) == Select(before, selection, dir) + [id]
  {
    hide Picks;
    var last := |before| - 1;
    if id == last {
      SelectSame(before[..last], after[..last], selection, dir);
    } else {
      SelectGains(before[..last], after[..last], selection, dir, id);
    }
  }

  lemma {:induction false} WithoutAppend(ids: seq<nat>, more: seq<nat>, id: nat)
    ensures Without(ids + more, id) == Without(ids, id) + Without(more, id)
  {
    if ids == [] {
      assert ids + more == more;
    } else {
      assert (ids + more)[1..] == ids[1..] + more;
      WithoutAppend(ids[1..], more, id);
    }
  }

  lemma {:induction false} WithoutAbsent(ids: seq<nat>, id: nat)
    requires id !in ids
    ensures Without(ids, id) == ids
  {
    if ids != [] {
      WithoutAbsent(ids[1..], id);
    }
  }

  lemma LastWithout(commands: seq<Command>, selection: Selection, dir: string)
    requires commands != []
    ensures Without(Select(commands, selection, dir), |commands| - 1) == Select(commands[..|commands| - 1], selection, dir)
  {
    var last := |commands| - 1;
    var front := Select(commands[..last], selection, dir);
    SelectMembers(commands[..last], selection, dir);
    WithoutAbsent(front, last);
    WithoutAppend(front, [last], last);
    assert Without([last], last) == [] && front + [] == front;
  }

  lemma FrontWithout(commands: seq<Command>, selection: Selection, dir: string, id: nat)
    requires commands != [] && id != |commands| - 1
    ensures var last := |commands| - 1;
            Without(Select(commands, selection, dir), id) ==
            Without(Select(commands[..last], selection, dir), id) + if Picks(selection, dir, commands[last]) then [last] else []
  {
    var last := |commands| - 1;
    var tail: seq<nat> := if Picks(selection, dir, commands[last]) then [last] else [];
    WithoutAppend(Select(commands[..last], selection, dir), tail, id);
    WithoutAbsent(tail, id);
  }

  /** A command that ceases to be picked. */
  lemma {:induction false} SelectLoses(before: seq<Command>, after: seq<Command>, selection: Selection, dir: string, id: nat)
    requires id < |before| && AgreeBut(before, after, selection, dir, id)
    requires !Picks(selection, dir, after[id])
    ensures Select(after, selection, dir) == Without(Select(before, selection, dir), id)
  {
    hide Picks, Without;
    var last := |before| - 1;
    if id == last {
      SelectSame(before[..last], after[..last], selection, dir);
      LastWithout(before, selection, dir);
    } else {
      SelectLoses(before[..last], after[..last], selection, dir, id);
      FrontWithout(before, selection, dir, id);
    }
  }

  // Invariant

  /** A command chained to nothing found all earlier commands of its directory cleaned up; any other is chained to the
      one before it. */
  ghost predicate ChainedRight(commands: seq<Command>, id: nat)
    requires id < |commands|
  {
    match commands[id].after
    case None => forall i :: 0 <= i < id && commands[i].dir == commands[id].dir ==> commands[i].phase.Cleaned?
    case Some(previous) =>
      && previous < id && commands[previous].dir == commands[id].dir
      && forall i :: previous < i < id ==> commands[i].dir != commands[id].dir
  }

  ghost predicate Chains(commands: seq<Command>) {
    forall id :: 0 <= id < |commands| ==> ChainedRight(commands, id)
  }

  /** No command has started before all earlier ones of its directory were done. */
  ghost predicate InOrder(commands: seq<Command>) {
    forall i, j :: 0 <= i < j < |commands| && commands[i].dir == commands[j].dir && !commands[j].phase.Waiting? ==>
      commands[i].phase.Done()
  }

  ghost predicate EntryRight(queues: Queues, dir: string) {
    var pending, all := Select(queues.commands, NotCleaned, dir), Select(queues.commands, All, dir);
    && (dir in queues.byDir <==> pending != [])
    && (dir in queues.byDir ==>
          queues.byDir[dir].pending == pending && all != [] && queues.byDir[dir].main == all[|all| - 1])
  }

  ghost predicate LogRight(queues: Queues, dir: string) {
    StartsIn(queues.started, queues.commands, dir) == Select(queues.commands, NotWaiting, dir)
  }

  ghost predicate LogKnown(queues: Queues) {
    forall i :: 0 <= i < |queues.started| ==> queues.started[i] < |queues.commands|
  }

  ghost predicate QueueInvariant(queues: Queues) {
    && Chains(queues.commands) && InOrder(queues.commands) && LogKnown(queues)
    && forall dir :: EntryRight(queues, dir) && LogRight(queues, dir)
  }

  // Enqueueing

  lemma {:induction false} StartsSame(started: seq<nat>, before: seq<Command>, after: seq<Command>, dir: string)
    requires |before| <= |after|
    requires forall id :: 0 <= id < |before| ==> before[id].dir == after[id].dir
    requires forall i :: 0 <= i < |started| ==> started[i] < |before|
    ensures StartsIn(started, before, dir) == StartsIn(started, after, dir)
  {
    if started != [] {
      StartsSame(started[..|started| - 1], before, after, dir);
    }
  }

  lemma SelectAppended(commands: seq<Command>, command: Command, selection: Selection, dir: string)
    ensures Select(commands + [command], selection, dir) ==
            Select(commands, selection, dir) + if Picks(selection, dir, command) then [|commands|] else []
  {
    assert (commands + [command])[..|commands|] == commands;
  }

  lemma EnqueueEntries(queues: Queues, dir: string, args: seq<string>, other: string)
    requires QueueInvariant(queues)
    ensures var next := Enqueued(queues, dir, args); EntryRight(next, other) && LogRight(next, other)
  {
    var next := Enqueued(queues, dir, args);
    var command := next.commands[|queues.commands|];
    assert EntryRight(queues, other) && LogRight(queues, other);
    SelectAppended(queues.commands, command, All, other);
    SelectAppended(queues.commands, command, NotCleaned, other);
    SelectAppended(queues.commands, command, NotWaiting, other);
    StartsSame(queues.started, queues.commands, next.commands, other);
  }

  /** The last command of a directory is the one that a new command is chained to, if it is not cleaned up. */
  lemma {:induction false} LastSelected(commands: seq<Command>, dir: string)
    requires Select(commands, All, dir) != []
    ensures var all := Select(commands, All, dir); var last := all[|all| - 1];
            && last < |commands| && commands[last].dir == dir
            && forall i :: last < i < |commands| ==> commands[i].dir != dir
  {
    var front := commands[..|commands| - 1];
    if commands[|commands| - 1].dir != dir {
      LastSelected(front, dir);
      assert forall i :: 0 <= i < |front| ==> front[i] == commands[i];
    }
  }

  lemma EnqueueKeeps(queues: Queues, dir: string, args: seq<string>)
    requires QueueInvariant(queues)
    ensures QueueInvariant(Enqueued(queues, dir, args))
  {
    var next := Enqueued(queues, dir, args);
    forall other ensures EntryRight(next, other) && LogRight(next, other) {
      EnqueueEntries(queues, dir, args, other);
    }
    assert EntryRight(queues, dir);
    if dir in queues.byDir {
      LastSelected(queues.commands, dir);
    } else {
      SelectMembers(queues.commands, NotCleaned, dir);
    }
    var id := |queues.commands|;
    assert ChainedRight(next.commands, id);
    forall i | 0 <= i < id ensures ChainedRight(next.commands, i) {
      assert ChainedRight(queues.commands, i);
    }
  }

  // Starting, settling, cleaning up

  /** `after` differs from `before` in the phase of one command. */
  ghost predicate PhaseChanged(before: seq<Command>, after: seq<Command>, id: nat, from: Phase, to: Phase) {
    && |before| == |after| && id < |before|
    && before[id].phase == from && after[id].phase == to
    && after[id].dir == before[id].dir && after[id].after == before[id].after
    && forall other :: 0 <= other < |before| && other != id ==> after[other] == before[other]
  }

  lemma ChainsKept(before: seq<Command>, after: seq<Command>, id: nat, from: Phase, to: Phase)
    requires Chains(before) && PhaseChanged(before, after, id, from, to) && !from.Cleaned?
    ensures Chains(after)
  {
    forall j | 0 <= j < |after| ensures ChainedRight(after, j) {
      assert ChainedRight(before, j);
    }
  }

  /** Everything a command has to wait for is done when it can start. */
  lemma StartableAfterAll(queues: Queues, id: nat)
    requires Chains(queues.commands) && InOrder(queues.commands) && CanStart(queues, id)
    ensures forall i :: 0 <= i < id && queues.commands[i].dir == queues.commands[id].dir ==> queues.commands[i].phase.Done()
  {
    assert ChainedRight(queues.commands, id);
  }

  lemma StartEntries(queues: Queues, id: nat, dir: string)
    requires QueueInvariant(queues) && CanStart(queues, id)
    ensures var next := Next(queues, Start(id)); EntryRight(next, dir) && LogRight(next, dir)
  {
    var before, next := queues.commands, Next(queues, Start(id));
    assert EntryRight(queues, dir) && LogRight(queues, dir);
    SelectSame(before, next.commands, All, dir);
    SelectSame(before, next.commands, NotCleaned, dir);
    StartsSame(queues.started, before, next.commands, dir);
    assert next.started[..|next.started| - 1] == queues.started;
    if before[id].dir == dir {
      SelectGains(before, next.commands, NotWaiting, dir, id);
    } else {
      SelectSame(before, next.commands, NotWaiting, dir);
    }
  }

  lemma StartKeeps(queues: Queues, id: nat)
    requires QueueInvariant(queues) && CanStart(queues, id)
    ensures QueueInvariant(Next(queues, Start(id)))
  {
    var next := Next(queues, Start(id));
    forall dir ensures EntryRight(next, dir) && LogRight(next, dir) {
      StartEntries(queues, id, dir);
    }
    ChainsKept(queues.commands, next.commands, id, Waiting, Running);
    StartableAfterAll(queues, id);
  }

  lemma SettleEntries(queues: Queues, id: nat, failed: bool, dir: string)
    requires QueueInvariant(queues) && InPhase(queues, id, Running)
    ensures var next := Next(queues, Settle(id, failed)); EntryRight(next, dir) && LogRight(next, dir)
  {
    hide Chains, InOrder, Select, StartsIn;
    var before, next := queues.commands, Next(queues, Settle(id, failed));
    assert EntryRight(queues, dir) && LogRight(queues, dir);
    SelectSame(before, next.commands, All, dir);
    SelectSame(before, next.commands, NotCleaned, dir);
    SelectSame(before, next.commands, NotWaiting, dir);
    StartsSame(queues.started, before, next.commands, dir);
  }

  lemma SettleKeeps(queues: Queues, id: nat, failed: bool)
    requires QueueInvariant(queues) && InPhase(queues, id, Running)
    ensures QueueInvariant(Next(queues, Settle(id, failed)))
  {
    hide EntryRight, LogRight;
    var next := Next(queues, Settle(id, failed));
    forall dir ensures EntryRight(next, dir) && LogRight(next, dir) {
      SettleEntries(queues, id, failed, dir);
    }
    ChainsKept(queues.commands, next.commands, id, Running, Settled);
  }

  /** Which commands are still listed once one is cleaned up. */
  lemma CleanupSelects(queues: Queues, id: nat, dir: string)
    requires InPhase(queues, id, Settled)
    ensures var before, after := queues.commands, CleanedUp(queues, id).commands;
            && Select(after, All, dir) == Select(before, All, dir)
            && Select(after, NotWaiting, dir) == Select(before, NotWaiting, dir)
            && Select(after, NotCleaned, dir) ==
               if before[id].dir == dir then Without(Select(before, NotCleaned, dir), id) else Select(before, NotCleaned, dir)
  {
    hide Select, Without;
    var before, after := queues.commands, CleanedUp(queues, id).commands;
    SelectSame(before, after, All, dir);
    SelectSame(before, after, NotWaiting, dir);
    if before[id].dir == dir {
      SelectLoses(before, after, NotCleaned, dir, id);
    } else {
      SelectSame(before, after, NotCleaned, dir);
    }
  }

  lemma CleanupEntries(queues: Queues, id: nat, dir: string)
    requires QueueInvariant(queues) && InPhase(queues, id, Settled)
    ensures var next := CleanedUp(queues, id); EntryRight(next, dir) && LogRight(next, dir)
  {
    hide Chains, InOrder, Select, StartsIn, Without, Picks;
    var next := CleanedUp(queues, id);
    assert EntryRight(queues, dir) && LogRight(queues, dir);
    CleanupSelects(queues, id, dir);
    StartsSame(queues.started, queues.commands, next.commands, dir);
    if queues.commands[id].dir == dir {
      SelectMembers(queues.commands, NotCleaned, dir);
      SettledIsListed(queues.commands[id], dir);
    }
  }

  lemma SettledIsListed(command: Command, dir: string)
    requires command.dir == dir && command.phase.Settled?
    ensures Picks(NotCleaned, dir, command)
  {
  }

  lemma CleanupKeeps(queues: Queues, id: nat)
    requires QueueInvariant(queues) && InPhase(queues, id, Settled)
    ensures QueueInvariant(CleanedUp(queues, id))
  {
    var next := CleanedUp(queues, id);
    forall dir ensures EntryRight(next, dir) && LogRight(next, dir) {
      CleanupEntries(queues, id, dir);
    }
    ChainsKept(queues.commands, next.commands, id, Settled, Cleaned);
  }

  lemma NextKeeps(queues: Queues, step: Step)
    requires QueueInvariant(queues)
    ensures QueueInvariant(Next(queues, step))
  {
    hide QueueInvariant, Enqueued, CleanedUp, CanStart;
    if Enabled(queues, step) {
      match step
      case Enqueue(dir, args) => EnqueueKeeps(queues, dir, args);
      case Start(id) => StartKeeps(queues, id);
      case Settle(id, failed) => SettleKeeps(queues, id, failed);
      case Cleanup(id) => CleanupKeeps(queues, id);
    }
  }

  lemma {:induction false} RunKeeps(queues: Queues, steps: seq<Step>)
    requires QueueInvariant(queues)
    ensures QueueInvariant(Run(queues, steps))
    decreases |steps|
  {
    hide QueueInvariant, Next;
    if steps != [] {
      NextKeeps(queues, steps[0]);
      RunKeeps(Next(queues, steps[0]), steps[1..]);
    }
  }

  // Main results

  ghost predicate RunsIn(commands: seq<Command>, dir: string, id: nat) {
    id < |commands| && commands[id].dir == dir && commands[id].phase.Running?
  }

  lemma AtMostOneRuns(queues: Queues, dir: string)
    requires InOrder(queues.commands)
    ensures forall i, j :: RunsIn(queues.commands, dir, i) && RunsIn(queues.commands, dir, j) ==> i == j
  {
  }

  lemma StartsArePrefix(queues: Queues, dir: string)
    requires QueueInvariant(queues)
    ensures StartsIn(queues.started, queues.commands, dir) <= Select(queues.commands, All, dir)
  {
    hide EntryRight, Chains, LogKnown, StartsIn, Select;
    assert LogRight(queues, dir);
    StartedIsPrefix(queues.commands, dir);
  }

  ghost predicate IsPending(commands: seq<Command>, dir: string, id: int) {
    0 <= id < |commands| && commands[id].dir == dir && !commands[id].phase.Cleaned?
  }

  lemma EntryWhilePending(queues: Queues, dir: string)
    requires QueueInvariant(queues)
    ensures dir in queues.byDir <==> exists id :: IsPending(queues.commands, dir, id)
  {
    hide Chains, InOrder, LogKnown, LogRight, Select;
    assert EntryRight(queues, dir);
    SelectMembers(queues.commands, NotCleaned, dir);
    var pending := Select(queues.commands, NotCleaned, dir);
    if pending != [] {
      assert pending[0] in pending;
      assert IsPending(queues.commands, dir, pending[0]);
    }
    if id :| IsPending(queues.commands, dir, id) {
      assert Picks(NotCleaned, dir, queues.commands[id]);
    }
  }

  lemma ReachedInvariant(steps: seq<Step>)
    ensures QueueInvariant(Run(EMPTY, steps))
  {
    hide QueueInvariant;
    EmptyInvariant();
    RunKeeps(EMPTY, steps);
  }

  /** Over every interleaving: at most one command per directory runs, the starts of a directory are its first enqueued
      commands in order and without repetition, and an entry exists exactly while a command is not cleaned up. */
  lemma SerialFifo(steps: seq<Step>, dir: string)
    ensures var queues := Run(EMPTY, steps); var commands := queues.commands;
            && (forall i, j :: RunsIn(commands, dir, i) && RunsIn(commands, dir, j) ==> i == j)
            && StartsIn(queues.started, commands, dir) <= Select(commands, All, dir)
            && (dir in queues.byDir <==> exists id :: IsPending(commands, dir, id))
  {
    hide Run, RunsIn, StartsIn, Select, IsPending, InOrder, Chains, EntryRight, LogRight;
    var queues := Run(EMPTY, steps);
    ReachedInvariant(steps);
    AtMostOneRuns(queues, dir);
    StartsArePrefix(queues, dir);
    EntryWhilePending(queues, dir);
  }

  lemma EmptyInvariant()
    ensures QueueInvariant(EMPTY)
  {
    forall dir ensures EntryRight(EMPTY, dir) && LogRight(EMPTY, dir) {
    }
  }

  /** In order, the commands that have started come first. */
  lemma {:induction false} StartedIsPrefix(commands: seq<Command>, dir: string)
    requires InOrder(commands)
    ensures Select(commands, NotWaiting, dir) <= Select(commands, All, dir)
  {
    if commands != [] {
      var last := |commands| - 1;
      var front := commands[..last];
      StartedIsPrefix(front, dir);
      if Picks(NotWaiting, dir, commands[last]) {
        AllStarted(front, dir);
      }
    }
  }

  lemma {:induction false} AllStarted(commands: seq<Command>, dir: string)
    requires forall i :: 0 <= i < |commands| && commands[i].dir == dir ==> commands[i].phase.Done()
    ensures Select(commands, NotWaiting, dir) == Select(commands, All, dir)
  {
    if commands != [] {
      AllStarted(commands[..|commands| - 1], dir);
    }
  }

  lemma {:induction false} HeadIsFirst(commands: seq<Command>, dir: string)
    requires Select(commands, NotCleaned, dir) != []
    ensures var head := Select(commands, NotCleaned, dir)[0];
            && head < |commands|
            && forall earlier :: 0 <= earlier < head && commands[earlier].dir == dir ==> commands[earlier].phase.Cleaned?
  {
    var front := commands[..|commands| - 1];
    if Select(front, NotCleaned, dir) != [] {
      HeadIsFirst(front, dir);
    } else {
      SelectMembers(front, NotCleaned, dir);
      forall earlier | 0 <= earlier < |front| && commands[earlier].dir == dir ensures commands[earlier].phase.Cleaned? {
        assert earlier !in Select(front, NotCleaned, dir);
        assert front[earlier] == commands[earlier];
      }
    }
  }

  /** `getComposeState` names the oldest command that is not cleaned up, and nothing when there is none. */
  lemma ComposeStateIsOldest(steps: seq<Step>, dir: string)
    requires forall id :: 0 <= id < |Run(EMPTY, steps).commands| ==> Run(EMPTY, steps).commands[id].args != []
    ensures var queues := Run(EMPTY, steps); var pending := Select(queues.commands, NotCleaned, dir);
            ComposeState(queues, dir) ==
            if pending == [] then None else Some(queues.commands[PendingHead(queues.commands, dir)].args[0])
  {
    var queues := Run(EMPTY, steps);
    ReachedInvariant(steps);
    assert EntryRight(queues, dir);
    if Select(queues.commands, NotCleaned, dir) != [] {
      var head := PendingHead(queues.commands, dir);
    }
  }

  ghost function PendingHead(commands: seq<Command>, dir: string): (id: nat)
    requires Select(commands, NotCleaned, dir) != []
    ensures id == Select(commands, NotCleaned, dir)[0]
    ensures id < |commands| && commands[id].dir == dir && !commands[id].phase.Cleaned?
    ensures forall earlier :: 0 <= earlier < id && commands[earlier].dir == dir ==> commands[earlier].phase.Cleaned?
  {
    SelectMembers(commands, NotCleaned, dir);
    HeadIsFirst(commands, dir);
    var id := Select(commands, NotCleaned, dir)[0];
    assert id in Select(commands, NotCleaned, dir);
    id
  }

  function Added(step: Step): seq<(string, seq<string>)> {
    if step.Enqueue? then [(step.dir, step.args)] else []
  }

  /** The commands that were enqueued, in order. */
  function Enqueues(steps: seq<Step>): seq<(string, seq<string>)>
    decreases |steps|
  {
    if steps == [] then []
    else Added(steps[0]) + Enqueues(steps[1..])
  }

  ghost predicate Labelled(commands: seq<Command>, labels: seq<(string, seq<string>)>) {
    |commands| == |labels| && forall i :: 0 <= i < |commands| ==> (commands[i].dir, commands[i].args) == labels[i]
  }

  lemma StepKeepsLabels(queues: Queues, step: Step, labels: seq<(string, seq<string>)>)
    requires Labelled(queues.commands, labels)
    ensures Labelled(Next(queues, step).commands, labels + Added(step))
  {
    match step
    case Enqueue(_, _) =>
    case Start(_) =>
    case Settle(_, _) =>
    case Cleanup(_) =>
  }

  lemma {:induction false} RunKeepsLabels(queues: Queues, steps: seq<Step>, labels: seq<(string, seq<string>)>)
    requires Labelled(queues.commands, labels)
    ensures Labelled(Run(queues, steps).commands, labels + Enqueues(steps))
    decreases |steps|
  {
    hide Next, Labelled, Added;
    if steps == [] {
      assert labels + Enqueues(steps) == labels;
    } else {
      StepKeepsLabels(queues, steps[0], labels);
      RunKeepsLabels(Next(queues, steps[0]), steps[1..], labels + Added(steps[0]));
      assert (labels + Added(steps[0])) + Enqueues(steps[1..]) == labels + Enqueues(steps);
    }
  }

  /** No command is lost or invented: over every interleaving the commands are those that were enqueued, each once, in this
      order and with its directory and arguments. */
  lemma EveryCommandIsKept(steps: seq<Step>)
    ensures var commands, enqueued := Run(EMPTY, steps).commands, Enqueues(steps);
            && |commands| == |enqueued|
            && forall i :: 0 <= i < |enqueued| ==> commands[i].dir == enqueued[i].0 && commands[i].args == enqueued[i].1
  {
    RunKeepsLabels(EMPTY, steps, []);
    assert [] + Enqueues(steps) == Enqueues(steps);
  }

  lemma {:induction false} OutcomeStays(queues: Queues, steps: seq<Step>, id: nat)
    requires id < |queues.commands| && queues.commands[id].phase.Done()
    ensures var commands := Run(queues, steps).commands;
            id < |commands| && commands[id].phase.Done() && commands[id].failed == queues.commands[id].failed
    decreases |steps|
  {
    hide Without;
    if steps != [] {
      OutcomeStays(Next(queues, steps[0]), steps[1..], id);
    }
  }

  /** How a command ended is what its caller learns, whatever happens to the queues afterwards. */
  lemma OutcomeIsKept(queues: Queues, id: nat, failed: bool, later: seq<Step>)
    requires InPhase(queues, id, Running)
    ensures var commands := Run(Next(queues, Settle(id, failed)), later).commands;
            id < |commands| && commands[id].phase.Done() && commands[id].failed == failed
  {
    OutcomeStays(Next(queues, Settle(id, failed)), later, id);
  }

  /** A chained command starts as soon as the command before it in its directory is over, whether that failed or not; nothing
      else holds it back. */
  lemma StartsAfterPredecessor(steps: seq<Step>, id: nat)
    requires var commands := Run(EMPTY, steps).commands; id < |commands| && commands[id].phase.Waiting?
    requires var commands := Run(EMPTY, steps).commands;
             forall earlier :: 0 <= earlier < id && commands[earlier].dir == commands[id].dir ==>
               commands[earlier].phase.Settled? || commands[earlier].phase.Cleaned?
    ensures var queues := Run(EMPTY, steps);
            && Enabled(queues, Start(id)) && Next(queues, Start(id)).commands[id].phase.Running?
            && Next(queues, Start(id)).started == queues.started + [id]
  {
    var queues := Run(EMPTY, steps);
    ReachedInvariant(steps);
    assert ChainedRight(queues.commands, id);
  }

  // Progress

  function StepsLeft(commands: seq<Command>): nat {
    if commands == [] then 0
    else StepsLeft(commands[..|commands| - 1]) + commands[|commands| - 1].phase.StepsLeft()
  }

  lemma {:induction false} StepsLeftChanges(before: seq<Command>, after: seq<Command>, id: nat, from: Phase, to: Phase)
    requires PhaseChanged(before, after, id, from, to)
    ensures StepsLeft(after) == StepsLeft(before) - from.StepsLeft() + to.StepsLeft()
  {
    var last := |before| - 1;
    if id == last {
      assert before[..last] == after[..last];
    } else {
      StepsLeftChanges(before[..last], after[..last], id, from, to);
    }
  }

  /** Every enabled step but enqueueing uses up one of the remaining steps, so a start happens at most once. */
  lemma StepUsesOne(queues: Queues, step: Step)
    requires Enabled(queues, step) && !step.Enqueue?
    ensures StepsLeft(Next(queues, step).commands) == StepsLeft(queues.commands) - 1
  {
    var before, after := queues.commands, Next(queues, step).commands;
    match step
    case Start(id) => StepsLeftChanges(before, after, id, Waiting, Running);
    case Settle(id, _) => StepsLeftChanges(before, after, id, Running, Settled);
    case Cleanup(id) => StepsLeftChanges(before, after, id, Settled, Cleaned);
  }

  /** No deadlock: while a command is left, some command can start, settle or be cleaned up, whatever failed before. */
  lemma {:induction false} SomeStepEnabled(queues: Queues, id: nat) returns (step: Step)
    requires QueueInvariant(queues) && id < |queues.commands| && !queues.commands[id].phase.Cleaned?
    ensures Enabled(queues, step) && !step.Enqueue?
  {
    match queues.commands[id].phase
    case Running => step := Settle(id, false);
    case Settled => step := Cleanup(id);
    case Waiting =>
      assert ChainedRight(queues.commands, id);
      match queues.commands[id].after
      case None => step := Start(id);
      case Some(previous) =>
        if queues.commands[previous].phase.Done() {
          step := Start(id);
        } else {
          step := SomeStepEnabled(queues, previous);
        }
  }

  /** When nothing but enqueueing is possible, every command has started exactly once, in order, and the map is empty. */
  lemma QuiescentMeansAllRan(steps: seq<Step>)
    requires forall step :: Enabled(Run(EMPTY, steps), step) ==> step.Enqueue?
    ensures var queues := Run(EMPTY, steps);
            && queues.byDir == map[]
            && (forall dir :: StartsIn(queues.started, queues.commands, dir) == Select(queues.commands, All, dir))
            && forall id :: 0 <= id < |queues.commands| ==> queues.commands[id].phase.Cleaned?
  {
    var queues := Run(EMPTY, steps);
    ReachedInvariant(steps);
    forall id | 0 <= id < |queues.commands| ensures queues.commands[id].phase.Cleaned? {
      if !queues.commands[id].phase.Cleaned? {
        var step := SomeStepEnabled(queues, id);
      }
    }
    forall dir
      ensures StartsIn(queues.started, queues.commands, dir) == Select(queues.commands, All, dir) && dir !in queues.byDir
    {
      assert EntryRight(queues, dir) && LogRight(queues, dir);
      AllStarted(queues.commands, dir);
      SelectMembers(queues.commands, NotCleaned, dir);
      if Select(queues.commands, NotCleaned, dir) != [] {
        var id := PendingHead(queues.commands, dir);
      }
    }
  }
}
