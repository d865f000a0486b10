/**
 The launch system is not empty: for every request there is a run from the empty store in which its
 command is started.
 */
module LaunchScenario {
  import opened Wrappers
  import opened StoreEvidence
  import opened JobStore
  import opened GuardianProtocol
  import opened Sequences
  import Guardian
  import Runner
  import opened LaunchNode
  import opened LaunchSystem
  import opened LaunchGuarantees

  /** Owner, job, token and claim of the one runner in the scenario, and what it was asked to run. */
  datatype Case = Case(request: RequestKey, invocation: Invocation, job: JobId, token: Token, claim: ClaimId)

  predicate Launchable(c: Case) {
    c.invocation.deadlineMs > 0 && ValidClaimId(c.claim)
  }

  // ---------------------------------------------------------------- the three parts, stage by stage

  function JobRow(c: Case, state: JobState): Job {
    Job(c.request, c.invocation, 0, c.invocation.deadlineMs, c.token, state)
  }

  function ReservedStore(c: Case): Store {
    Store(map[c.job := View(JobRow(c, Reserved), Some(Control(None, None, None)), None, [], [], [])],
          map[c.request := c.job], {})
  }

  function ClaimedStore(c: Case): Store {
    Store(map[c.job := View(JobRow(c, Claimed), Some(Control(None, None, None)), Some(Claim(c.claim, 0, 0)), [], [], [])],
          map[c.request := c.job], {c.claim})
  }

  const AUTHORIZED := Control(None, Some(Authorized), Some(0))

  function AuthorizedStore(c: Case): Store {
    Store(map[c.job := View(JobRow(c, Claimed), Some(AUTHORIZED), Some(Claim(c.claim, 0, 0)), [], [], [])],
          map[c.request := c.job], {c.claim})
  }

  function Given(c: Case): Orders {
    Orders(c.invocation.command, c.invocation.cwd, c.invocation.deadlineMs)
  }

  function LoadingRunner(): Runner.State {
    Runner.START.(stage := Runner.Loading)
  }

  function SupervisingRunner(o: Orders): Runner.State {
    LoadingRunner().(stage := Runner.Supervising, orders := Some(o), timers := Runner.Timers(true, true, Runner.Unset, false, None))
  }

  function DecidingRunner(o: Orders): Runner.State {
    SupervisingRunner(o).(gate := Runner.Gate(true, false, false, 1))
  }

  function GrantingRunner(o: Orders): Runner.State {
    SupervisingRunner(o).(gate := Runner.Gate(true, true, true, 0), capture := Runner.Capture(true, false, false, false, None))
  }

  function ProbingGuardian(o: Orders, probe: Guardian.Probe): Guardian.State {
    Guardian.INITIAL.(reply := Some(o), readinessArmed := false, probes := [probe])
  }

  lemma RunnerStages(o: Orders)
    ensures Runner.Step(Runner.START, Runner.ClaimReturned(true)) == Runner.Turn(LoadingRunner(), [Runner.CallLoad])
    ensures Runner.Step(LoadingRunner(), Runner.LoadReturned(Some(o), true, true)) == Runner.Turn(SupervisingRunner(o), [])
    ensures Runner.Step(SupervisingRunner(o), Runner.MessageArrived(Hello)) == Runner.Turn(SupervisingRunner(o), [Runner.SendHelloReply(o)])
    ensures Runner.Step(SupervisingRunner(o), Runner.MessageArrived(Topology(true))) == Runner.Turn(DecidingRunner(o), [Runner.CallDecide])
    ensures Runner.Step(DecidingRunner(o), Runner.DecideReturned(Success(AuthorizedNow), true, true, true, 0))
         == Runner.Turn(GrantingRunner(o), [Runner.SendGrant])
  {
  }

  lemma GuardianStages(o: Orders)
    requires o.deadlineAt > 0
    ensures Guardian.Step(Guardian.INITIAL, Guardian.HelloReplied(o)) == Guardian.Turn(ProbingGuardian(o, Guardian.OwnGroup), [])
    ensures Guardian.Step(ProbingGuardian(o, Guardian.OwnGroup), Guardian.Probed(0, 7, Some(7)))
         == Guardian.Turn(ProbingGuardian(o, Guardian.RunnerGroup(Some(7))), [])
    ensures Guardian.Step(ProbingGuardian(o, Guardian.RunnerGroup(Some(7))), Guardian.Probed(0, 7, Some(3)))
         == Guardian.Turn(Guardian.ReadyState(o), [Guardian.Sent(Topology(true))])
    ensures Guardian.Step(Guardian.ReadyState(o), Guardian.GrantReceived(0, Guardian.Forks)).effects == [Guardian.ShellStarted(o)]
  {
  }

  lemma StoreStages(c: Case)
    requires Launchable(c)
    ensures Apply(EMPTY, Reserve(c.request, c.invocation, c.job, c.token), 0).store == ReservedStore(c)
    ensures Apply(ReservedStore(c), ClaimRunner(c.request.owner, c.job, c.claim, c.token), 0).store == ClaimedStore(c)
    ensures var decided := Apply(ClaimedStore(c), Decide(c.request.owner, c.job, c.claim, c.token), 0);
            decided.store == AuthorizedStore(c) && decided.result == Success(DecideReply(AuthorizedNow, AUTHORIZED))
  {
  }

  // ---------------------------------------------------------------- the node, stage by stage

  function NodeOf(c: Case, runner: Runner.State, guardian: Guardian.State, toRunner: seq<GuardianMessage>, toGuardian: seq<RunnerMessage>): Node {
    FreshNode(c.request.owner, c.job, c.token).(runner := runner, guardian := guardian, toRunner := toRunner, toGuardian := toGuardian)
  }

  lemma NodeSendsHello(c: Case)
    ensures var o := Given(c);
            && RunnerMoves(NodeOf(c, Runner.START, Guardian.INITIAL, [Hello], []), c.claim, Runner.ClaimReturned(true))
               == NodeOf(c, LoadingRunner(), Guardian.INITIAL, [Hello], [])
            && RunnerMoves(NodeOf(c, LoadingRunner(), Guardian.INITIAL, [Hello], []), c.claim, Runner.LoadReturned(Some(o), true, true))
               == NodeOf(c, SupervisingRunner(o), Guardian.INITIAL, [Hello], [])
            && RunnerMoves(NodeOf(c, SupervisingRunner(o), Guardian.INITIAL, [Hello], []), c.claim, Runner.MessageArrived(Hello))
               == NodeOf(c, SupervisingRunner(o), Guardian.INITIAL, [], [HelloReply(o)])
  {
    var o := Given(c);
    RunnerStages(o);
    hide Runner.Step;
    OneRequest(Runner.CallLoad);
    OneRequest(Runner.SendHelloReply(o));
    assert FlatMap(OutgoingOf, []) == [];
    assert PublicationsOf(NodeOf(c, SupervisingRunner(o), Guardian.INITIAL, [Hello], []), c.claim, [Runner.SendHelloReply(o)]) == {};
    assert PublicationsOf(NodeOf(c, Runner.START, Guardian.INITIAL, [Hello], []), c.claim, [Runner.CallLoad]) == {};
  }

  lemma OneRequest(r: Runner.Request)
    ensures FlatMap(OutgoingOf, [r]) == OutgoingOf(r)
  {
    assert [r][..0] == [];
  }

  lemma OneEffect(x: Guardian.Effect)
    ensures FlatMap(MessageOf, [x]) == MessageOf(x)
    ensures Guardian.Shells([x]) == Guardian.ShellOf(x)
  {
    assert [x][..0] == [];
    assert FlatMap(Guardian.ShellOf, [x]) == FlatMap(Guardian.ShellOf, [x][..0]) + Guardian.ShellOf(x);
  }

  lemma NodeProbes(c: Case)
    requires Launchable(c)
    ensures var o := Given(c);
            var runner := SupervisingRunner(o);
            && GuardianMoves(NodeOf(c, runner, Guardian.INITIAL, [], [HelloReply(o)]), Guardian.HelloReplied(o))
               == NodeOf(c, runner, ProbingGuardian(o, Guardian.OwnGroup), [], [])
            && GuardianMoves(NodeOf(c, runner, ProbingGuardian(o, Guardian.OwnGroup), [], []), Guardian.Probed(0, 7, Some(7)))
               == NodeOf(c, runner, ProbingGuardian(o, Guardian.RunnerGroup(Some(7))), [], [])
            && GuardianMoves(NodeOf(c, runner, ProbingGuardian(o, Guardian.RunnerGroup(Some(7))), [], []), Guardian.Probed(0, 7, Some(3)))
               == NodeOf(c, runner, Guardian.ReadyState(o), [Topology(true)], [])
  {
    var o := Given(c);
    GuardianStages(o);
    hide Guardian.Step;
    OneEffect(Guardian.Sent(Topology(true)));
    assert FlatMap(MessageOf, []) == [] && Guardian.Shells([]) == [];
    hide Guardian.Shells;
  }

  /** The node once its decision call has committed with an authorization. */
  function WithAnswer(n: Node): Node {
    n.(decideCalled := true, answers := [Success(DecideReply(AuthorizedNow, AUTHORIZED))])
  }

  lemma NodeDecides(c: Case)
    requires Launchable(c)
    ensures var o := Given(c);
            var ready := NodeOf(c, SupervisingRunner(o), Guardian.ReadyState(o), [Topology(true)], []);
            var deciding := NodeOf(c, DecidingRunner(o), Guardian.ReadyState(o), [], []);
            var granted := WithAnswer(NodeOf(c, GrantingRunner(o), Guardian.ReadyState(o), [], [Grant]));
            && RunnerMoves(ready, c.claim, Runner.MessageArrived(Topology(true))) == deciding.(decideCalled := true)
            && RunnerMoves(WithAnswer(deciding), c.claim, Runner.DecideReturned(Success(AuthorizedNow), true, true, true, 0)) == granted
            && GuardianMoves(granted, Guardian.GrantReceived(0, Guardian.Forks)).shells == 1
            && GuardianMoves(granted, Guardian.GrantReceived(0, Guardian.Forks)).shell == Running(o)
  {
    var o := Given(c);
    RunnerStages(o);
    GuardianStages(o);
    hide Runner.Step, Guardian.Step;
    OneRequest(Runner.CallDecide);
    OneRequest(Runner.SendGrant);
    OneEffect(Guardian.ShellStarted(o));
    hide Guardian.Shells;
    var ready := NodeOf(c, SupervisingRunner(o), Guardian.ReadyState(o), [Topology(true)], []);
    assert PublicationsOf(ready, c.claim, [Runner.CallDecide]) == {};
    assert PublicationsOf(WithAnswer(NodeOf(c, DecidingRunner(o), Guardian.ReadyState(o), [], [])), c.claim, [Runner.SendGrant]) == {};
  }

  // ---------------------------------------------------------------- the run

  function Sys(store: Store, c: Case, n: Node): System {
    System(store, map[c.claim := n])
  }

  lemma RunExtends(states: seq<System>, steps: seq<Step>, step: Step)
    requires IsRun(states, steps) && Possible(states[|steps|], step)
    ensures IsRun(states + [Next(states[|steps|], step)], steps + [step])
  {
    hide Possible, Next;
  }

  /** One more step of the one node, which commits nothing. */
  lemma NodeRunExtends(states: seq<System>, steps: seq<Step>, c: Case, store: Store, n: Node, m: Node, step: Step)
    returns (states': seq<System>, steps': seq<Step>)
    requires IsRun(states, steps) && states[|steps|] == Sys(store, c, n)
    requires step.RunnerSteps? || step.GuardianSteps?
    requires step.claim == c.claim && Possible(Sys(store, c, n), step) && NodeAfter(Sys(store, c, n), step) == m
    ensures IsRun(states', steps') && states'[|steps'|] == Sys(store, c, m)
  {
    RunExtends(states, steps, step);
    states', steps' := states + [Next(states[|steps|], step)], steps + [step];
    hide Possible, NodeAfter, IsRun;
    assert map[c.claim := n][c.claim := m] == map[c.claim := m];
  }

  lemma ReservedAndClaimed(c: Case) returns (states: seq<System>, steps: seq<Step>)
    requires Launchable(c)
    ensures IsRun(states, steps)
    ensures states[|steps|] == Sys(ClaimedStore(c), c, NodeOf(c, Runner.START, Guardian.INITIAL, [Hello], []))
  {
    StoreStages(c);
    hide Apply, ReservedStore, ClaimedStore;
    var born := NodeOf(c, Runner.START, Guardian.INITIAL, [Hello], []);
    states, steps := [START], [];
    var reserve := ClientCommits(Reserve(c.request, c.invocation, c.job, c.token), 0);
    RunExtends(states, steps, reserve);
    states, steps := states + [Next(START, reserve)], steps + [reserve];
    var launch := LaunchRunner(c.claim, c.request.owner, c.job, c.token);
    assert states[|steps|] == System(ReservedStore(c), map[]);
    RunExtends(states, steps, launch);
    states, steps := states + [Next(states[|steps|], launch)], steps + [launch];
    assert states[|steps|] == Sys(ReservedStore(c), c, born);
    var claim := ClaimCommits(c.claim, 0);
    RunExtends(states, steps, claim);
    states, steps := states + [Next(states[|steps|], claim)], steps + [claim];
    assert map[c.claim := born][c.claim := born] == map[c.claim := born];
  }

  lemma HelloAnswered(c: Case) returns (states: seq<System>, steps: seq<Step>)
    requires Launchable(c)
    ensures IsRun(states, steps)
    ensures states[|steps|] == Sys(ClaimedStore(c), c, NodeOf(c, SupervisingRunner(Given(c)), Guardian.INITIAL, [], [HelloReply(Given(c))]))
  {
    var o := Given(c);
    states, steps := ReservedAndClaimed(c);
    NodeSendsHello(c);
    var store := ClaimedStore(c);
    var born := NodeOf(c, Runner.START, Guardian.INITIAL, [Hello], []);
    var loading := NodeOf(c, LoadingRunner(), Guardian.INITIAL, [Hello], []);
    var supervising := NodeOf(c, SupervisingRunner(o), Guardian.INITIAL, [Hello], []);
    var replied := NodeOf(c, SupervisingRunner(o), Guardian.INITIAL, [], [HelloReply(o)]);
    assert ReadOf(store, loading).Some? && OrdersOf(ReadOf(store, loading).value.job) == o;
    hide RunnerMoves, IsRun, ClaimedStore, ReadOf;
    states, steps := NodeRunExtends(states, steps, c, store, born, loading, RunnerSteps(c.claim, Runner.ClaimReturned(true)));
    states, steps := NodeRunExtends(states, steps, c, store, loading, supervising, RunnerSteps(c.claim, Runner.LoadReturned(Some(o), true, true)));
    states, steps := NodeRunExtends(states, steps, c, store, supervising, replied, RunnerSteps(c.claim, Runner.MessageArrived(Hello)));
  }

  lemma TopologyVerified(c: Case) returns (states: seq<System>, steps: seq<Step>)
    requires Launchable(c)
    ensures IsRun(states, steps)
    ensures states[|steps|] == Sys(ClaimedStore(c), c, NodeOf(c, SupervisingRunner(Given(c)), Guardian.ReadyState(Given(c)), [Topology(true)], []))
  {
    var o := Given(c);
    var runner := SupervisingRunner(o);
    states, steps := HelloAnswered(c);
    NodeProbes(c);
    var store := ClaimedStore(c);
    var replied := NodeOf(c, runner, Guardian.INITIAL, [], [HelloReply(o)]);
    var probing := NodeOf(c, runner, ProbingGuardian(o, Guardian.OwnGroup), [], []);
    var probed := NodeOf(c, runner, ProbingGuardian(o, Guardian.RunnerGroup(Some(7))), [], []);
    var ready := NodeOf(c, runner, Guardian.ReadyState(o), [Topology(true)], []);
    hide GuardianMoves, IsRun, ClaimedStore;
    states, steps := NodeRunExtends(states, steps, c, store, replied, probing, GuardianSteps(c.claim, Guardian.HelloReplied(o)));
    states, steps := NodeRunExtends(states, steps, c, store, probing, probed, GuardianSteps(c.claim, Guardian.Probed(0, 7, Some(7))));
    states, steps := NodeRunExtends(states, steps, c, store, probed, ready, GuardianSteps(c.claim, Guardian.Probed(0, 7, Some(3))));
  }

  /** Every reserved command can be started: the guarantees are not about an empty set of runs. */
  lemma CommandsCanRun(c: Case) returns (states: seq<System>, steps: seq<Step>)
    requires Launchable(c)
    ensures IsRun(states, steps)
    ensures var y := states[|steps|];
            c.claim in y.nodes && y.nodes[c.claim].shells == 1 && y.nodes[c.claim].shell == Running(Given(c))
  {
    states, steps := TopologyVerified(c);
    states, steps := DecisionCommitted(c, states, steps);
    states, steps := GrantedAndStarted(c, states, steps);
  }

  function DecidingNode(c: Case): Node {
    NodeOf(c, DecidingRunner(Given(c)), Guardian.ReadyState(Given(c)), [], [])
  }

  lemma DecisionCommitted(c: Case, states: seq<System>, steps: seq<Step>) returns (states': seq<System>, steps': seq<Step>)
    requires Launchable(c) && IsRun(states, steps)
    requires states[|steps|] == Sys(ClaimedStore(c), c, NodeOf(c, SupervisingRunner(Given(c)), Guardian.ReadyState(Given(c)), [Topology(true)], []))
    ensures IsRun(states', steps') && states'[|steps'|] == Sys(AuthorizedStore(c), c, WithAnswer(DecidingNode(c)))
  {
    var o := Given(c);
    NodeDecides(c);
    StoreStages(c);
    states', steps' := states, steps;
    var ready := NodeOf(c, SupervisingRunner(o), Guardian.ReadyState(o), [Topology(true)], []);
    var deciding := DecidingNode(c).(decideCalled := true);
    hide Apply, RunnerMoves, GuardianMoves, IsRun, ClaimedStore, AuthorizedStore;
    states', steps' := NodeRunExtends(states', steps', c, ClaimedStore(c), ready, deciding, RunnerSteps(c.claim, Runner.MessageArrived(Topology(true))));
    var commit := DecisionCommits(c.claim, 0);
    RunExtends(states', steps', commit);
    states', steps' := states' + [Next(states'[|steps'|], commit)], steps' + [commit];
    assert [] + [Success(DecideReply(AuthorizedNow, AUTHORIZED))] == WithAnswer(deciding).answers;
    assert map[c.claim := deciding][c.claim := WithAnswer(deciding)] == map[c.claim := WithAnswer(deciding)];
  }

  lemma GrantedAndStarted(c: Case, states: seq<System>, steps: seq<Step>) returns (states': seq<System>, steps': seq<Step>)
    requires Launchable(c) && IsRun(states, steps) && states[|steps|] == Sys(AuthorizedStore(c), c, WithAnswer(DecidingNode(c)))
    ensures IsRun(states', steps')
    ensures var y := states'[|steps'|];
            c.claim in y.nodes && y.nodes[c.claim].shells == 1 && y.nodes[c.claim].shell == Running(Given(c))
  {
    var o := Given(c);
    NodeDecides(c);
    var answered := WithAnswer(DecidingNode(c));
    var granted := WithAnswer(NodeOf(c, GrantingRunner(o), Guardian.ReadyState(o), [], [Grant]));
    assert Answered(answered.answers, AuthorizedNow) by {
      assert answered.answers[0].value.decision == AuthorizedNow;
    }
    hide RunnerMoves, GuardianMoves, IsRun, AuthorizedStore, Answered;
    states', steps' := NodeRunExtends(states, steps, c, AuthorizedStore(c), answered, granted,
      RunnerSteps(c.claim, Runner.DecideReturned(Success(AuthorizedNow), true, true, true, 0)));
    var started := GuardianMoves(granted, Guardian.GrantReceived(0, Guardian.Forks));
    states', steps' := NodeRunExtends(states', steps', c, AuthorizedStore(c), granted, started,
      GuardianSteps(c.claim, Guardian.GrantReceived(0, Guardian.Forks)));
  }
}
