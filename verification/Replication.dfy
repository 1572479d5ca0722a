/** Replication of the cluster configuration: pushes, hash-gated pulls and join responses over a network that delays,
    loses, repeats and reorders messages (src/cluster/config.ts, src/app/httpServer.ts, src/cli/accept.ts,
    src/cli/join.ts). */
module Replication {
  import opened Wrappers
  import opened Models
  import opened Registries
  import opened ClusterStates
  import opened Clusters

  /** A configuration in memory. Two nodes may hold the same configuration with their fields in a different order, and the
      order takes part in the hash: `rendering` stands for it. */
  datatype Held = Held(config: ClusterState, rendering: nat)

  /** SHA-256 over the serialised configuration, taken as an injective function of what is serialised. */
  datatype ConfigDigest = ConfigDigest(held: Held)

  /** `pull` numbers the config checks of a node. An answer without configuration says `up_to_date`. */
  datatype Message =
    | SetConfig(to: nat, config: ClusterState)
    | JoinReply(to: nat, config: ClusterState)
    | CheckRequest(sender: nat, pull: nat, digest: ConfigDigest)
    | CheckReply(to: nat, pull: nat, answer: Option<ClusterState>)

  /** `history` lists the coordinator's configurations, the present one last. Messages stay in the network for good. */
  datatype System = System(coordinator: Held, history: seq<ClusterState>, followers: map<nat, Held>, messages: set<Message>)

  datatype Step =
    | Change(held: Held)
    | Push(to: nat)
    | AnswerJoin(to: nat)
    | StartPull(host: nat, pull: nat)
    | Answer(request: Message)
    | Receive(message: Message, rendering: nat)
    | Reset(host: nat)

  /** The configuration that a message asks its receiver to install. */
  function Payload(message: Message): Option<(nat, ClusterState)> {
    match message
    case SetConfig(to, config) => Some((to, config))
    case JoinReply(to, config) => Some((to, config))
    case CheckReply(to, _, answer) => if answer.Some? then Some((to, answer.value)) else None
    case CheckRequest(_, _, _) => None
  }

  /** What a message does to the configuration of the node that receives it. A node without a configuration refuses
      pushes, and whatever does not load is dropped. */
  function Installed(held: Option<Held>, message: Message, rendering: nat): Option<Held> {
    match Payload(message)
    case None => held
    case Some((_, config)) =>
      if (message.SetConfig? && held.None?) || !Accepts(config) then held else Some(Held(Loaded(config), rendering))
  }

  function HeldBy(system: System, host: nat): Option<Held> {
    if host in system.followers then Some(system.followers[host]) else None
  }

  function Sent(system: System, message: Message): System {
    system.(messages := system.messages + {message})
  }

  /** The coordinator's side of `/config_check`. */
  function ReplyTo(coordinator: Held, sender: nat, pull: nat, digest: ConfigDigest): Message {
    CheckReply(sender, pull, if digest == ConfigDigest(coordinator) then None else Some(coordinator.config))
  }

  function Next(system: System, step: Step): System {
    match step
    case Change(held) => system.(coordinator := held, history := system.history + [held.config])
    case Push(to) => Sent(system, SetConfig(to, system.coordinator.config))
    case AnswerJoin(to) => Sent(system, JoinReply(to, system.coordinator.config))
    case StartPull(host, pull) =>
      if host in system.followers then Sent(system, CheckRequest(host, pull, ConfigDigest(system.followers[host]))) else system
    case Answer(request) =>
      if request in system.messages && request.CheckRequest?
      then Sent(system, ReplyTo(system.coordinator, request.sender, request.pull, request.digest)) else system
    case Receive(message, rendering) =>
      if message !in system.messages || Payload(message).None? then system else
      var to := Payload(message).value.0;
      (match Installed(HeldBy(system, to), message, rendering)
       case None => system
       case Some(held) => system.(followers := system.followers[to := held]))
    case Reset(host) => system.(followers := system.followers - {host})
  }

  function Run(system: System, steps: seq<Step>): System
    decreases |steps|
  {
    if steps == [] then system else Run(Next(system, steps[0]), steps[1..])
  }

  // Safety

  ghost predicate StepValid(step: Step) {
    step.Change? ==> ClusterInvariant(step.held.config)
  }

  ghost predicate HistoryValid(system: System) {
    && system.history != [] && system.history[|system.history| - 1] == system.coordinator.config
    && forall config :: config in system.history ==> ClusterInvariant(config)
  }

  ghost predicate FollowersInHistory(system: System) {
    forall host :: host in system.followers ==> system.followers[host].config in system.history
  }

  ghost predicate MessagesInHistory(system: System) {
    forall message :: message in system.messages && Payload(message).Some? ==> Payload(message).value.1 in system.history
  }

  ghost predicate ReplicationInvariant(system: System) {
    HistoryValid(system) && FollowersInHistory(system) && MessagesInHistory(system)
  }

  function Fresh(coordinator: Held): System {
    System(coordinator, [coordinator.config], map[], {})
  }

  lemma NextKeeps(system: System, step: Step)
    requires ReplicationInvariant(system) && StepValid(step)
    ensures ReplicationInvariant(Next(system, step)) && system.history <= Next(system, step).history
  {
    hide ClusterInvariant, Accepts, Loaded;
    if step.Receive? && step.message in system.messages && Payload(step.message).Some? {
      LoadedUnchanged(Payload(step.message).value.1);
    }
  }

  lemma {:induction false} RunKeeps(system: System, steps: seq<Step>)
    requires ReplicationInvariant(system) && forall i :: 0 <= i < |steps| ==> StepValid(steps[i])
    ensures ReplicationInvariant(Run(system, steps))
    decreases |steps|
  {
    hide ReplicationInvariant, StepValid, Next;
    if steps != [] {
      NextKeeps(system, steps[0]);
      RunKeeps(Next(system, steps[0]), steps[1..]);
    }
  }

  /** Whatever happens to messages, a follower holds a configuration that the coordinator has held, and so inherits the
      coordinator's invariants. */
  lemma FollowersHoldHistory(coordinator: Held, steps: seq<Step>, host: nat)
    requires ClusterInvariant(coordinator.config) && forall i :: 0 <= i < |steps| ==> StepValid(steps[i])
    requires host in Run(Fresh(coordinator), steps).followers
    ensures var system := Run(Fresh(coordinator), steps);
            system.followers[host].config in system.history && ClusterInvariant(system.followers[host].config)
  {
    hide ClusterInvariant;
    RunKeeps(Fresh(coordinator), steps);
  }

  // What an answer says

  /** No message of this pull exists yet. */
  ghost predicate Unused(system: System, host: nat, pull: nat) {
    forall message :: message in system.messages ==>
      && (message.CheckRequest? ==> !(message.sender == host && message.pull == pull))
      && (message.CheckReply? ==> !(message.to == host && message.pull == pull))
  }

  /** The state before step number `at`. */
  function Before(system: System, steps: seq<Step>, at: nat): System
    requires at <= |steps|
  {
    Run(system, steps[..at])
  }

  lemma {:induction false} RunSnoc(system: System, steps: seq<Step>, last: Step)
    ensures Run(system, steps + [last]) == Next(Run(system, steps), last)
    decreases |steps|
  {
    hide Next;
    if steps == [] {
      assert steps + [last] == [last] && [last][1..] == [];
    } else {
      assert (steps + [last])[0] == steps[0] && (steps + [last])[1..] == steps[1..] + [last];
      RunSnoc(Next(system, steps[0]), steps[1..], last);
    }
  }

  /** A message that is not there from the start was sent by some step. */
  lemma {:induction false} SentBy(system: System, steps: seq<Step>, message: Message) returns (at: nat)
    requires message !in system.messages && message in Run(system, steps).messages
    ensures at < |steps| && message !in Before(system, steps, at).messages
    ensures message in Next(Before(system, steps, at), steps[at]).messages
    decreases |steps|
  {
    hide Next;
    assert steps != [];
    var front, last := steps[..|steps| - 1], steps[|steps| - 1];
    assert steps == front + [last];
    RunSnoc(system, front, last);
    if message in Run(system, front).messages {
      at := SentBy(system, front, message);
      assert front[..at] == steps[..at];
    } else {
      at := |front|;
      assert steps[..at] == front;
    }
  }

  /** The answer to a config check is made from the coordinator's configuration at that moment: it is `up_to_date` exactly
      when the hash was sent for the coordinator's own configuration, and carries that configuration otherwise. */
  ghost predicate AnsweredAt(system: System, step: Step, host: nat, pull: nat, digest: ConfigDigest, answer: Option<ClusterState>) {
    && step == Answer(CheckRequest(host, pull, digest))
    && CheckRequest(host, pull, digest) in system.messages
    && answer == if digest == ConfigDigest(system.coordinator) then None else Some(system.coordinator.config)
  }

  lemma AnswerStep(system: System, step: Step, host: nat, pull: nat, answer: Option<ClusterState>) returns (digest: ConfigDigest)
    requires CheckReply(host, pull, answer) !in system.messages
    requires CheckReply(host, pull, answer) in Next(system, step).messages
    ensures AnsweredAt(system, step, host, pull, digest, answer)
  {
    hide Installed;
    digest := step.request.digest;
  }

  lemma RequestStep(system: System, step: Step, host: nat, pull: nat, digest: ConfigDigest)
    requires CheckRequest(host, pull, digest) !in system.messages
    requires CheckRequest(host, pull, digest) in Next(system, step).messages
    ensures step == StartPull(host, pull) && host in system.followers && digest == ConfigDigest(system.followers[host])
  {
    hide Installed;
  }

  /** Over every run, an answer in the network was made at some step `answered` for a request sent at an earlier step
      `asked`. `up_to_date` means that the configuration the node held when it asked was the one the coordinator held when
      it answered; any other answer carries the configuration the coordinator held then. */
  lemma ReplyMeans(system: System, steps: seq<Step>, host: nat, pull: nat, answer: Option<ClusterState>)
    returns (asked: nat, answered: nat)
    requires Unused(system, host, pull) && CheckReply(host, pull, answer) in Run(system, steps).messages
    ensures asked < answered < |steps| && steps[asked] == StartPull(host, pull)
    ensures var before, later := Before(system, steps, asked), Before(system, steps, answered);
            && host in before.followers
            && (answer.None? <==> before.followers[host] == later.coordinator)
            && (answer.Some? ==> answer.value == later.coordinator.config)
  {
    hide Next;
    answered := SentBy(system, steps, CheckReply(host, pull, answer));
    var later := Before(system, steps, answered);
    var digest := AnswerStep(later, steps[answered], host, pull, answer);
    asked := SentBy(system, steps[..answered], CheckRequest(host, pull, digest));
    assert steps[..answered][..asked] == steps[..asked];
    RequestStep(Before(system, steps, asked), steps[asked], host, pull, digest);
  }

  // Agreement

  /** The coordinator keeps its configuration, and the node is not reset. */
  ghost predicate Quiet(step: Step, host: nat) {
    !step.Change? && step != Reset(host)
  }

  ghost predicate NothingStale(system: System, host: nat) {
    forall message :: message in system.messages && Payload(message).Some? && Payload(message).value.0 == host ==>
      Payload(message).value.1 == system.coordinator.config
  }

  predicate Agrees(system: System, host: nat) {
    host in system.followers && system.followers[host].config == system.coordinator.config
  }

  predicate ShowsAgreement(message: Message, coordinator: Held, host: nat, pull: nat) {
    && message.CheckRequest? && message.sender == host && message.pull == pull
    && message.digest.held.config == coordinator.config
  }

  predicate Confirms(message: Message, host: nat, pull: nat) {
    message.CheckReply? && message.to == host && message.pull == pull && message.answer.None?
  }

  /** A request of this pull that shows agreement, or an answer that confirms it, exists only when the node agrees. */
  ghost predicate PullHonest(system: System, host: nat, pull: nat) {
    forall message :: message in system.messages ==>
      && (ShowsAgreement(message, system.coordinator, host, pull) ==> Agrees(system, host))
      && (Confirms(message, host, pull) ==> Agrees(system, host))
  }

  ghost predicate Calm(system: System, host: nat) {
    ReplicationInvariant(system) && NothingStale(system, host)
  }

  ghost predicate Window(system: System, host: nat, pull: nat) {
    Calm(system, host) && PullHonest(system, host, pull)
  }

  lemma CoordinatorAccepted(system: System)
    requires ReplicationInvariant(system)
    ensures Accepts(system.coordinator.config) && Loaded(system.coordinator.config) == system.coordinator.config
  {
    hide NodesInvariant, RegistryInvariant, InfoAccepts;
    assert system.coordinator.config in system.history;
    InvariantIsAccepted(system.coordinator.config);
    LoadedUnchanged(system.coordinator.config);
  }

  lemma AgreementKept(system: System, step: Step, host: nat)
    requires ReplicationInvariant(system) && NothingStale(system, host) && Quiet(step, host) && Agrees(system, host)
    ensures Agrees(Next(system, step), host)
  {
    hide ClusterInvariant, Accepts, Loaded, ReplicationInvariant;
    CoordinatorAccepted(system);
  }

  lemma CalmKept(system: System, step: Step, host: nat)
    requires Calm(system, host) && Quiet(step, host)
    ensures Calm(Next(system, step), host) && Next(system, step).coordinator == system.coordinator
    ensures Agrees(system, host) ==> Agrees(Next(system, step), host)
  {
    hide ReplicationInvariant, ClusterInvariant, Accepts, Loaded;
    assert StepValid(step);
    NextKeeps(system, step);
    if Agrees(system, host) {
      AgreementKept(system, step, host);
    }
  }

  lemma {:induction false} CalmRun(system: System, steps: seq<Step>, host: nat)
    requires Calm(system, host) && forall i :: 0 <= i < |steps| ==> Quiet(steps[i], host)
    ensures Calm(Run(system, steps), host) && Run(system, steps).coordinator == system.coordinator
    ensures Agrees(system, host) ==> Agrees(Run(system, steps), host)
    decreases |steps|
  {
    hide Calm, Quiet, Next, Agrees;
    if steps != [] {
      CalmKept(system, steps[0], host);
      CalmRun(Next(system, steps[0]), steps[1..], host);
    }
  }

  lemma WindowKept(system: System, step: Step, host: nat, pull: nat)
    requires Window(system, host, pull) && Quiet(step, host)
    ensures Window(Next(system, step), host, pull)
  {
    hide ReplicationInvariant, ClusterInvariant, Accepts, Loaded;
    CalmKept(system, step, host);
  }

  lemma {:induction false} WindowRun(system: System, steps: seq<Step>, host: nat, pull: nat)
    requires Window(system, host, pull) && forall i :: 0 <= i < |steps| ==> Quiet(steps[i], host)
    ensures Window(Run(system, steps), host, pull)
    decreases |steps|
  {
    hide Window, Quiet, Next;
    if steps != [] {
      WindowKept(system, steps[0], host, pull);
      WindowRun(Next(system, steps[0]), steps[1..], host, pull);
    }
  }

  /** A node that receives the coordinator's present configuration agrees with it afterwards; a push needs a node that has a
      configuration already, and any other message does not. */
  lemma CurrentInstalled(system: System, message: Message, rendering: nat, host: nat)
    requires ReplicationInvariant(system) && message in system.messages
    requires message.SetConfig? ==> host in system.followers
    requires Payload(message) == Some((host, system.coordinator.config))
    ensures Agrees(Next(system, Receive(message, rendering)), host)
  {
    hide ReplicationInvariant, ClusterInvariant, Accepts, Loaded;
    CoordinatorAccepted(system);
  }

  lemma ReceiptAgrees(system: System, host: nat, pull: nat, answer: Option<ClusterState>, rendering: nat)
    requires Window(system, host, pull) && CheckReply(host, pull, answer) in system.messages
    ensures Agrees(Next(system, Receive(CheckReply(host, pull, answer), rendering)), host)
  {
    hide ReplicationInvariant, ClusterInvariant, Accepts, Loaded, Agrees;
    var reply := CheckReply(host, pull, answer);
    match answer
    case Some(config) =>
      assert Payload(reply) == Some((host, config));
      CurrentInstalled(system, reply, rendering, host);
    case None =>
      assert Confirms(reply, host, pull);
      assert Next(system, Receive(reply, rendering)) == system;
  }

  /** With the coordinator unchanged and no stale message in flight to the node, one completed pull gives agreement, and
      the agreement lasts, whatever else is sent, repeated or reordered meanwhile. */
  lemma CompletedPullAgrees(system: System, before: seq<Step>, answer: Option<ClusterState>, rendering: nat, after: seq<Step>,
                            host: nat, pull: nat)
    requires ReplicationInvariant(system) && NothingStale(system, host) && Unused(system, host, pull)
    requires forall i :: 0 <= i < |before| ==> Quiet(before[i], host)
    requires forall i :: 0 <= i < |after| ==> Quiet(after[i], host)
    requires CheckReply(host, pull, answer) in Run(system, before).messages
    ensures var received := Next(Run(system, before), Receive(CheckReply(host, pull, answer), rendering));
            var final := Run(received, after);
            Agrees(final, host) && final.coordinator == system.coordinator
  {
    hide Agrees, ReplicationInvariant, NothingStale;
    var receipt := Receive(CheckReply(host, pull, answer), rendering);
    assert Window(system, host, pull);
    WindowRun(system, before, host, pull);
    CalmRun(system, before, host);
    hide Calm;
    ReceiptAgrees(Run(system, before), host, pull, answer, rendering);
    CalmKept(Run(system, before), receipt, host);
    CalmRun(Next(Run(system, before), receipt), after, host);
  }

  /** The same for a push: with nothing stale in flight, a member that receives any push agrees, and the agreement lasts. */
  lemma CompletedPushAgrees(system: System, before: seq<Step>, config: ClusterState, rendering: nat, after: seq<Step>,
                            host: nat)
    requires ReplicationInvariant(system) && NothingStale(system, host)
    requires forall i :: 0 <= i < |before| ==> Quiet(before[i], host)
    requires forall i :: 0 <= i < |after| ==> Quiet(after[i], host)
    requires host in Run(system, before).followers && SetConfig(host, config) in Run(system, before).messages
    ensures var received := Next(Run(system, before), Receive(SetConfig(host, config), rendering));
            var final := Run(received, after);
            Agrees(final, host) && final.coordinator == system.coordinator
  {
    hide Agrees, ReplicationInvariant;
    CalmRun(system, before, host);
    var now, push := Run(system, before), SetConfig(host, config);
    assert Payload(push) == Some((host, config));
    CurrentInstalled(now, push, rendering, host);
    CalmKept(now, Receive(push, rendering), host);
    CalmRun(Next(now, Receive(push, rendering)), after, host);
  }

  // What gets through

  /** Only a change touches the coordinator, a node is touched only by a message to it and by its own reset, and messages
      stay in the network. */
  lemma StepFrame(system: System, step: Step, host: nat)
    ensures var after := Next(system, step);
            && (!step.Change? ==> after.coordinator == system.coordinator && after.history == system.history)
            && (step.Change? ==> after.coordinator == step.held && after.history == system.history + [step.held.config])
            && (HeldBy(after, host) != HeldBy(system, host) ==>
                  || step == Reset(host)
                  || (step.Receive? && step.message in system.messages && Payload(step.message).Some? &&
                      Payload(step.message).value.0 == host))
            && system.messages <= after.messages
  {
    hide Accepts, Loaded;
  }

  /** The step does not bring the node the answer to a join or to a pull. */
  predicate BringsNoAnswer(step: Step, host: nat) {
    step.Receive? && Payload(step.message).Some? && Payload(step.message).value.0 == host ==> step.message.SetConfig?
  }

  lemma {:induction false} StaysOut(system: System, steps: seq<Step>, host: nat)
    requires host !in system.followers
    requires forall i :: 0 <= i < |steps| ==> BringsNoAnswer(steps[i], host)
    ensures host !in Run(system, steps).followers
    decreases |steps|
  {
    hide Accepts, Loaded;
    if steps != [] {
      StaysOut(Next(system, steps[0]), steps[1..], host);
    }
  }

  /** A node that was reset has no configuration until the answer to a join or to a pull reaches it: pushes alone never bring
      it back. */
  lemma ResetStays(system: System, steps: seq<Step>, host: nat)
    requires forall i :: 0 <= i < |steps| ==> BringsNoAnswer(steps[i], host)
    ensures host !in Run(Next(system, Reset(host)), steps).followers
  {
    StaysOut(Next(system, Reset(host)), steps, host);
  }

  /** A change that is pushed: the push carries the new configuration, and a member that receives it holds that one. */
  lemma ChangeDelivers(system: System, held: Held, host: nat, rendering: nat)
    requires ReplicationInvariant(system) && ClusterInvariant(held.config) && host in system.followers
    ensures var pushed := Next(Next(system, Change(held)), Push(host)); var push := SetConfig(host, held.config);
            var received := Next(pushed, Receive(push, rendering));
            push in pushed.messages && host in received.followers && received.followers[host].config == held.config
  {
    hide ReplicationInvariant, ClusterInvariant, Accepts, Loaded;
    NextKeeps(system, Change(held));
    PushDelivers(Next(system, Change(held)), host, rendering);
  }

  /** A push that arrives: a member holds the coordinator's configuration at once, whatever it held and whatever else is in
      flight; a node without a configuration does not take it. */
  lemma PushDelivers(system: System, host: nat, rendering: nat)
    requires ReplicationInvariant(system)
    ensures var pushed := Next(system, Push(host)); var push := SetConfig(host, system.coordinator.config);
            var received := Next(pushed, Receive(push, rendering));
            && push in pushed.messages
            && (host in system.followers ==> Agrees(received, host))
            && (host !in system.followers ==> received == pushed)
  {
    hide ReplicationInvariant, ClusterInvariant, Accepts, Loaded;
    NextKeeps(system, Push(host));
    var pushed, push := Next(system, Push(host)), SetConfig(host, system.coordinator.config);
    assert Payload(push) == Some((host, system.coordinator.config));
    if host in system.followers {
      CurrentInstalled(pushed, push, rendering, host);
    }
  }

  /** A pull that is answered at once: the node asks, the coordinator answers, and the node agrees. */
  lemma PullDelivers(system: System, host: nat, pull: nat, rendering: nat)
    requires ReplicationInvariant(system) && host in system.followers
    ensures var asked := Next(system, StartPull(host, pull));
            var request := CheckRequest(host, pull, ConfigDigest(system.followers[host]));
            var answered := Next(asked, Answer(request));
            var same := system.followers[host] == system.coordinator;
            var reply := CheckReply(host, pull, if same then None else Some(system.coordinator.config));
            && request in asked.messages && reply in answered.messages
            && Agrees(Next(answered, Receive(reply, rendering)), host)
  {
    hide ReplicationInvariant, ClusterInvariant, Accepts, Loaded;
    var asked := Next(system, StartPull(host, pull));
    var request := CheckRequest(host, pull, ConfigDigest(system.followers[host]));
    var answered := Next(asked, Answer(request));
    NextKeeps(system, StartPull(host, pull));
    NextKeeps(asked, Answer(request));
    if system.followers[host] != system.coordinator {
      var reply := CheckReply(host, pull, Some(system.coordinator.config));
      assert Payload(reply) == Some((host, system.coordinator.config));
      CurrentInstalled(answered, reply, rendering, host);
    }
  }

  /** Joining gives a node without a configuration the coordinator's one. */
  lemma JoinDelivers(system: System, host: nat, rendering: nat)
    requires ReplicationInvariant(system)
    ensures var sent := Next(system, AnswerJoin(host)); var reply := JoinReply(host, system.coordinator.config);
            reply in sent.messages && Agrees(Next(sent, Receive(reply, rendering)), host)
  {
    hide ReplicationInvariant, ClusterInvariant, Accepts, Loaded;
    NextKeeps(system, AnswerJoin(host));
    var reply := JoinReply(host, system.coordinator.config);
    assert Payload(reply) == Some((host, system.coordinator.config));
    CurrentInstalled(Next(system, AnswerJoin(host)), reply, rendering, host);
  }

  // The code, step by step

  /** The configuration singleton of a daemon, with the endpoints that read and replace it. */
  class Daemon {
    var held: Option<Held>

    constructor ()
      ensures held == None
    {
      held := None;
    }

    /** `applyClusterConfig`; false stands for the thrown error. The configuration is replaced before WireGuard is set up and
        the files are written, so that it stays replaced when one of them fails (`saved` is false then). */
    method ApplyClusterConfig(config: ClusterState, rendering: nat, saved: bool) returns (applied: bool)
      modifies this
      ensures applied <==> Accepts(config) && saved
      ensures held == if Accepts(config) then Some(Held(Loaded(config), rendering)) else old(held)
    {
      hide Accepts;
      var loaded := Cluster.FromJson(config.info, config.nodes, config.services);
      assert config == ClusterState(config.info, config.nodes, config.services);
      if loaded.Err? {
        return false;
      }
      held := Some(Held(loaded.value.State(), rendering));
      return saved;
    }

    /** `/set_config`: 503 without a configuration, 400 for one that does not load or cannot be saved, else 204. */
    method SetConfigEndpoint(to: nat, config: ClusterState, rendering: nat, saved: bool) returns (status: nat)
      modifies this
      ensures held == Installed(old(held), SetConfig(to, config), rendering)
      ensures old(held).Some? && Accepts(config) ==> held == Some(Held(Loaded(config), rendering))
      ensures old(held).None? || !Accepts(config) ==> held == old(held)
      ensures status == 204 ==> held.Some? && held.value.config == Loaded(config)
      ensures status == if old(held).None? then 503 else if Accepts(config) && saved then 204 else 400
    {
      hide Accepts, Loaded;
      if held.None? {
        return 503;
      }
      var applied := ApplyClusterConfig(config, rendering, saved);
      status := if applied then 204 else 400;
    }

    /** `/config_check` of the coordinator. */
    method ConfigCheckEndpoint(sender: nat, pull: nat, digest: ConfigDigest) returns (reply: Message)
      requires held.Some?
      ensures reply == ReplyTo(held.value, sender, pull, digest)
    {
      if digest == ConfigDigest(held.value) {
        return CheckReply(sender, pull, None);
      }
      return CheckReply(sender, pull, Some(held.value.config));
    }

    /** The end of `syncClusterConfigFromCoordinator`. */
    method FinishCheck(to: nat, pull: nat, answer: Option<ClusterState>, rendering: nat, saved: bool)
      modifies this
      ensures held == Installed(old(held), CheckReply(to, pull, answer), rendering)
      ensures answer.Some? && Accepts(answer.value) ==> held == Some(Held(Loaded(answer.value), rendering))
      ensures answer.None? || !Accepts(answer.value) ==> held == old(held)
    {
      hide Accepts, Loaded;
      if answer.None? {
        return;
      }
      var applied := ApplyClusterConfig(answer.value, rendering, saved);
    }

    /** The end of joining a cluster. */
    method FinishJoin(to: nat, config: ClusterState, rendering: nat, saved: bool)
      modifies this
      ensures held == Installed(old(held), JoinReply(to, config), rendering)
      ensures held == if Accepts(config) then Some(Held(Loaded(config), rendering)) else old(held)
    {
      hide Accepts, Loaded;
      var applied := ApplyClusterConfig(config, rendering, saved);
    }
  }
}
