/**
 What each message of the guardian means and what each of its decisions took. The laws here read
 the event that was handled and the facts the guardian had, not the functions that compute the step.
 */
module GuardianMessages {
  import opened Wrappers
  import opened StoreEvidence
  import opened GuardianProtocol
  import opened Guardian

  // ---------------------------------------------------------------- what happened

  /** The second probe of a topology check that is still wanted. */
  predicate Concludes(s: State, e: Event)
    requires Enabled(s, e)
  {
    e.Probed? && s.probes[e.index].RunnerGroup? && !s.phase.Exited?
  }

  /** The guardian leads its own group and the runner is in another one. */
  predicate Separate(own: Option<int>, runner: Option<int>, pid: int) {
    own == Some(pid) && runner.Some? && runner.value != pid
  }

  predicate Verifies(s: State, e: Event)
    requires Enabled(s, e)
  {
    Concludes(s, e) && Separate(s.probes[e.index].own, e.group, e.pid)
  }

  predicate Grants(s: State, e: Event) {
    e.GrantReceived? && s.phase.Ready? && s.reply.Some?
  }

  predicate InTime(s: State, e: Event) {
    Grants(s, e) && e.wallClock < s.reply.value.deadlineAt
  }

  predicate Late(s: State, e: Event) {
    Grants(s, e) && e.wallClock >= s.reply.value.deadlineAt
  }

  /** The step gives the work up, closing the outputs and the channel. */
  predicate Stops(s: State, e: Event)
    requires Enabled(s, e)
  {
    || (Concludes(s, e) && !Verifies(s, e))
    || Late(s, e)
    || (InTime(s, e) && e.outcome.Throws?)
    || (e.ChildFailed? && !s.shellExited)
    || (e.TermSignalled? && (s.phase.Starting? || s.phase.Ready? || s.phase.Exited?))
    || (e.Disconnected? && (s.phase.Starting? || s.phase.Ready? || s.phase.Cleaning?))
    || (e.KillFired? && s.killAt.value <= e.now)
    || e.ReadinessFired?
  }

  /** The one reason there is for each message. */
  ghost predicate Justified(s: State, e: Event, m: GuardianMessage)
    requires Enabled(s, e)
  {
    match m
    case Hello => false
    case Topology(ok) => Concludes(s, e) && (ok <==> Verifies(s, e))
    case ProtocolViolation => e.GrantReceived? && !Grants(s, e)
    case ShellSpawned => e.ChildSpawned?
    case ShellError(ExpiredBeforeSpawn) => Late(s, e)
    case ShellError(SpawnRefused) => (e.ChildFailed? && !s.shellExited) || (InTime(s, e) && e.outcome.Throws?)
    case ShellExit(code, signal) => e.ChildExited? && code == e.code && signal == e.signal
    case CleanupTerm(observation) => StartsCleanup(s, e) && observation == e.term.observation
    case CleanupKillIntent => SendsKill(s, e)
    case Deadline => Late(s, e) || (e.DeadlineFired? && StartsCleanup(s, e))
  }

  // ---------------------------------------------------------------- messages

  /** The effects of the step that starts cleanup. */
  lemma CleanupLog(s: State, e: Event)
    requires Enabled(s, e) && StartsCleanup(s, e)
    ensures var term, told := GroupTerm(e.term.returnedAt), Sent(CleanupTerm(e.term.observation));
            Step(s, e).effects ==
            if !s.connected || e.Disconnected? then [term]
            else if e.DeadlineFired? then [Sent(Deadline), term, told]
            else if e.ChildExited? then [Sent(ShellExit(e.code, e.signal)), term, told]
            else [term, told]
  {
    match e
    case ChildExited(_, _, _) =>
    case TermSignalled(_) =>
    case Disconnected(_) =>
    case DeadlineFired(_) =>
  }

  /** A message is sent exactly when the channel is open and its reason holds. */
  lemma SendsExactly(s: State, e: Event, m: GuardianMessage)
    requires Enabled(s, e)
    ensures Sent(m) in Step(s, e).effects <==> s.connected && !e.Disconnected? && Justified(s, e, m)
  {
    if StartsCleanup(s, e) {
      CleanupLog(s, e);
      hide Step;
    } else {
      match e
      case Probed(index, pid, group) => ProbeSends(s, index, pid, group, m);
      case GrantReceived(_, _) => hide Concludes, Verifies;
      case ChildExited(code, signal, _) => assert Step(s, e).effects == Send(s, ShellExit(code, signal));
      case TermSignalled(_) => assert Step(s, e).effects == [];
      case Disconnected(_) => assert Step(s, e).effects == [];
      case DeadlineFired(_) => assert Step(s, e).effects == [];
      case KillFired(_) =>
      case _ =>
    }
  }

  /** The guardian reports a verified topology exactly for its own group and a foreign runner. */
  lemma ProbeSends(s: State, index: nat, pid: int, group: Option<int>, m: GuardianMessage)
    requires Enabled(s, Probed(index, pid, group))
    ensures var e := Probed(index, pid, group);
            Sent(m) in Step(s, e).effects <==> s.connected && Justified(s, e, m)
  {
    var e := Probed(index, pid, group);
    if Concludes(s, e) && group.Some? {
      assert Separate(s.probes[index].own, group, pid) <==> s.probes[index].own == Some(pid) && group.value != pid;
    }
  }

  /** The first effect comes before the second wherever the log has both. */
  predicate Before(log: seq<Effect>, a: Effect, b: Effect) {
    forall i, k :: 0 <= i < |log| && 0 <= k < |log| && log[i] == a && log[k] == b ==> i < k
  }

  predicate Distinct(log: seq<Effect>) {
    forall i, k :: 0 <= i < k < |log| ==> log[i] != log[k]
  }

  /** What cleanup announces before its TERM was sent before it, and the receipt after it; nothing is sent twice. */
  lemma CleanupInOrder(s: State, e: Event)
    requires Enabled(s, e) && StartsCleanup(s, e)
    ensures var log := Step(s, e).effects;
            && Distinct(log)
            && Before(log, Sent(Deadline), GroupTerm(e.term.returnedAt))
            && (e.ChildExited? ==> Before(log, Sent(ShellExit(e.code, e.signal)), GroupTerm(e.term.returnedAt)))
            && Before(log, GroupTerm(e.term.returnedAt), Sent(CleanupTerm(e.term.observation)))
  {
    CleanupLog(s, e);
    hide Step, StartsCleanup;
  }

  /** The kill intent is sent before the KILL, which reaches the guardian too. */
  lemma IntentBeforeKill(s: State, e: Event)
    requires Enabled(s, e) && SendsKill(s, e)
    ensures Distinct(Step(s, e).effects) && Before(Step(s, e).effects, Sent(CleanupKillIntent), GroupKill(e.now))
  {
    assert Step(s, e).effects == if s.connected then [Sent(CleanupKillIntent), GroupKill(e.now)] else [GroupKill(e.now)];
  }

  /** A late grant reports the deadline first. */
  lemma DeadlineBeforeExpiry(s: State, e: Event)
    requires Enabled(s, e) && Late(s, e)
    ensures Distinct(Step(s, e).effects) && Before(Step(s, e).effects, Sent(Deadline), Sent(ShellError(ExpiredBeforeSpawn)))
  {
    assert Step(s, e).effects == if s.connected then [Sent(Deadline), Sent(ShellError(ExpiredBeforeSpawn))] else [];
  }

  // ---------------------------------------------------------------- what a step leaves

  /** The phase after a step, each phase by the events that lead to it and keep it. */
  lemma PhaseFollows(s: State, e: Event)
    requires Sound(s) && Enabled(s, e) && FirstHello(s, e)
    ensures var t := Step(s, e).state.phase;
            && (t.Starting? <==> s.phase.Starting? && !Stops(s, e) && !Verifies(s, e))
            && (t.Ready? <==> Verifies(s, e) || (s.phase.Ready? && e.HelloReplied?))
            && (t.Granted? <==> (InTime(s, e) && !e.outcome.Throws?)
                                || (s.phase.Granted? && (e.HelloReplied? || e.GrantReceived?)))
            && (t.ShellRunning? <==> e.ChildSpawned? || (s.phase.ShellRunning? && !StartsCleanup(s, e) && !Stops(s, e)))
            && (t.Cleaning? <==> StartsCleanup(s, e) || (s.phase.Cleaning? && !e.ChildSpawned? && !Stops(s, e)))
            && (t.Exited? <==> Stops(s, e) || (s.phase.Exited? && !e.ChildSpawned?))
  {
    match e
    case Probed(_, _, _) =>
    case GrantReceived(_, _) =>
    case ChildExited(_, _, _) =>
    case TermSignalled(_) =>
    case Disconnected(_) =>
    case DeadlineFired(_) =>
    case KillFired(_) =>
    case _ =>
  }

  /** The channel, the orders and the readiness timer, by what sets and what clears them. */
  lemma ChannelFollows(s: State, e: Event)
    requires Sound(s) && Enabled(s, e) && FirstHello(s, e)
    ensures var t := Step(s, e).state;
            && (t.connected <==> s.connected && !e.Disconnected? && !Stops(s, e))
            && t.reply == (if e.HelloReplied? && s.phase.Starting? then Some(e.orders) else s.reply)
            && (t.readinessArmed <==> s.readinessArmed && !Stops(s, e) && !(e.HelloReplied? && s.phase.Starting?))
  {
    hide Send;
    match e
    case Probed(_, _, _) =>
    case GrantReceived(_, _) =>
    case ChildExited(_, _, _) =>
    case TermSignalled(_) =>
    case Disconnected(_) =>
    case DeadlineFired(_) =>
    case KillFired(_) =>
    case _ =>
  }

  function ChildAfter(s: State, e: Event): Child {
    match e
    case ChildSpawned => Spawned
    case ChildFailed => Gone
    case ChildExited(_, _, _) => Gone
    case GrantReceived(_, outcome) =>
      if !InTime(s, e) || outcome.Throws? then s.child else if outcome.Forks? then Forked else ForkFailed
    case _ => s.child
  }

  /** The child and the deadline timer. */
  lemma ShellFollows(s: State, e: Event)
    requires Sound(s) && Enabled(s, e) && FirstHello(s, e)
    ensures var t := Step(s, e).state;
            && (t.shellExited <==> s.shellExited || e.ChildExited?)
            && t.child == ChildAfter(s, e)
            && (t.deadlineArmed <==> || (InTime(s, e) && !e.outcome.Throws?)
                                     || (s.deadlineArmed && !e.DeadlineFired? && (Stops(s, e) ==> s.cleanupStarted)))
  {
    hide Send;
    match e
    case Probed(_, _, _) =>
    case GrantReceived(_, _) =>
    case ChildExited(_, _, _) =>
    case TermSignalled(_) =>
    case Disconnected(_) =>
    case DeadlineFired(_) =>
    case KillFired(_) =>
    case _ =>
  }

  /** Where the probe stood and what became of it. */
  ghost predicate ProbeAnswered(s: State, index: nat, group: Option<int>, after: seq<Probe>)
    requires index < |s.probes|
  {
    if s.probes[index].OwnGroup? && !s.phase.Exited? then after == s.probes[index := RunnerGroup(group)]
    else after == s.probes[..index] + s.probes[index + 1..]
  }

  /** One check asks for the guardian's own group first, keeps the answer and then asks for the runner's. */
  lemma ProbesFollow(s: State, e: Event)
    requires Enabled(s, e)
    ensures var after := Step(s, e).state.probes;
            if e.Probed? then ProbeAnswered(s, e.index, e.group, after)
            else if e.HelloReplied? && s.phase.Starting? then after == s.probes + [OwnGroup]
            else after == s.probes
  {
    hide Send;
    match e
    case Probed(index, pid, group) => hide Separate;
    case GrantReceived(_, _) =>
    case ChildExited(_, _, _) =>
    case TermSignalled(_) =>
    case Disconnected(_) =>
    case DeadlineFired(_) =>
    case KillFired(_) =>
    case _ =>
  }

  // ---------------------------------------------------------------- over a whole run

  /** The run was told these orders. */
  ghost predicate Told(events: seq<Event>, orders: Orders) {
    exists g :: 0 <= g < |events| && events[g] == HelloReplied(orders)
  }

  ghost predicate OwnAt(events: seq<Event>, h: nat, own: Option<int>, orders: Orders)
    requires h < |events|
  {
    events[h].Probed? && events[h].group == own && Told(events[..h], orders)
  }

  /** After the orders a probe answered with this group. */
  ghost predicate Answered(events: seq<Event>, own: Option<int>, orders: Orders) {
    exists h :: 0 <= h < |events| && OwnAt(events, h, own, orders)
  }

  ghost predicate CheckedAt(events: seq<Event>, i: nat, orders: Orders)
    requires i < |events|
  {
    && events[i].Probed?
    && events[i].group.Some? && events[i].group.value != events[i].pid
    && Answered(events[..i], Some(events[i].pid), orders)
  }

  /** After the orders one probe answered with the guardian's own process id and a later one with another group. */
  ghost predicate Checked(events: seq<Event>, orders: Orders) {
    exists i :: 0 <= i < |events| && CheckedAt(events, i, orders)
  }

  ghost predicate LaunchedAt(events: seq<Event>, k: nat, orders: Orders)
    requires k < |events|
  {
    && events[k].GrantReceived? && events[k].wallClock < orders.deadlineAt && events[k].outcome.Forks?
    && Checked(events[..k], orders)
  }

  /** After all that a grant came before the deadline, and the fork succeeded. */
  ghost predicate Launched(events: seq<Event>, orders: Orders) {
    exists k :: 0 <= k < |events| && LaunchedAt(events, k, orders)
  }

  lemma HistoryExtends(events: seq<Event>, e: Event, own: Option<int>, orders: Orders)
    ensures Told(events, orders) ==> Told(events + [e], orders)
    ensures Answered(events, own, orders) ==> Answered(events + [e], own, orders)
    ensures Checked(events, orders) ==> Checked(events + [e], orders)
    ensures Launched(events, orders) ==> Launched(events + [e], orders)
  {
    var longer := events + [e];
    assert forall i :: 0 <= i < |events| ==> longer[i] == events[i] && longer[..i] == events[..i];
    hide Told, OwnAt, CheckedAt, LaunchedAt;
    if Told(events, orders) { ToldExtends(events, e, orders); }
    if h :| 0 <= h < |events| && OwnAt(events, h, own, orders) { SameHistory(events, longer, h, own, orders); }
    if i :| 0 <= i < |events| && CheckedAt(events, i, orders) { SameHistory(events, longer, i, own, orders); }
    if k :| 0 <= k < |events| && LaunchedAt(events, k, orders) { SameHistory(events, longer, k, own, orders); }
  }

  lemma ToldExtends(events: seq<Event>, e: Event, orders: Orders)
    requires Told(events, orders)
    ensures Told(events + [e], orders)
  {
    var g :| 0 <= g < |events| && events[g] == HelloReplied(orders);
    assert (events + [e])[g] == HelloReplied(orders);
  }

  lemma SameHistory(a: seq<Event>, b: seq<Event>, i: nat, own: Option<int>, orders: Orders)
    requires i < |a| && i < |b| && a[i] == b[i] && a[..i] == b[..i]
    ensures OwnAt(a, i, own, orders) == OwnAt(b, i, own, orders)
    ensures CheckedAt(a, i, orders) == CheckedAt(b, i, orders)
    ensures LaunchedAt(a, i, orders) == LaunchedAt(b, i, orders)
  {
  }

  /** The last event of a run as the one that was waited for. */
  lemma HistoryGains(events: seq<Event>, e: Event, orders: Orders)
    ensures e == HelloReplied(orders) ==> Told(events + [e], orders)
    ensures e.Probed? && Told(events, orders) ==> Answered(events + [e], e.group, orders)
    ensures e.Probed? && e.group.Some? && e.group.value != e.pid && Answered(events, Some(e.pid), orders) ==> Checked(events + [e], orders)
    ensures e.GrantReceived? && e.wallClock < orders.deadlineAt && e.outcome.Forks? && Checked(events, orders) ==> Launched(events + [e], orders)
  {
    var longer, n := events + [e], |events|;
    assert longer[n] == e && longer[..n] == events;
    hide Told, Answered, Checked;
    if e.Probed? && Told(events, orders) { assert OwnAt(longer, n, e.group, orders); AnsweredBy(longer, n, e.group, orders); }
    if e == HelloReplied(orders) { ToldBy(longer, n, orders); }
    if e.Probed? && CheckedAt(longer, n, orders) { CheckedBy(longer, n, orders); }
    if LaunchedAt(longer, n, orders) { assert Launched(longer, orders); }
  }

  lemma ToldBy(events: seq<Event>, g: nat, orders: Orders)
    requires g < |events| && events[g] == HelloReplied(orders)
    ensures Told(events, orders)
  {
  }

  lemma AnsweredBy(events: seq<Event>, h: nat, own: Option<int>, orders: Orders)
    requires h < |events| && OwnAt(events, h, own, orders)
    ensures Answered(events, own, orders)
  {
  }

  lemma CheckedBy(events: seq<Event>, i: nat, orders: Orders)
    requires i < |events| && CheckedAt(events, i, orders)
    ensures Checked(events, orders)
  {
  }

  /** What a reached state owes to the events that led to it. */
  ghost predicate Accounted(s: State, events: seq<Event>) {
    s.reply.Some? ==>
      && Told(events, s.reply.value)
      && (s.phase.Ready? ==> Checked(events, s.reply.value))
      && (s.probes != [] && s.probes[0].RunnerGroup? ==> Answered(events, s.probes[0].own, s.reply.value))
  }

  lemma StepAccounts(s: State, e: Event, events: seq<Event>)
    requires Sound(s) && Enabled(s, e) && FirstHello(s, e) && Accounted(s, events)
    ensures Accounted(Step(s, e).state, events + [e])
    ensures StartsShell(s, e) ==> Launched(events + [e], s.reply.value)
  {
    var t, longer := Step(s, e).state, events + [e];
    PhaseFollows(s, e);
    ChannelFollows(s, e);
    ProbesFollow(s, e);
    hide Step, Told, Answered, Checked, Launched;
    if t.reply.Some? {
      HistoryGains(events, e, t.reply.value);
      HistoryExtends(events, e, if s.probes != [] && s.probes[0].RunnerGroup? then s.probes[0].own else None, t.reply.value);
    }
  }

  /**
   Over every run with one hello reply: a shell is started only with the orders of that reply, after
   a probe that put the guardian in its own group, a later one that put the runner in another, and
   then a grant before the deadline.
   */
  lemma {:induction false} ShellNeedsTopology(events: seq<Event>)
    requires OneHello(events)
    ensures Accounted(Run(events).state, events)
    ensures forall orders :: orders in Shells(Run(events).effects) ==> Launched(events, orders)
  {
    if events != [] {
      var init, e := events[..|events| - 1], events[|events| - 1];
      var before := Run(init);
      ShellNeedsTopology(init);
      OneAttendedShell(init);
      assert events == init + [e];
      FirstHelloOfRun(init, e, events);
      hide Launched, Sound, FirstHello, OneHello, Shells;
      if Enabled(before.state, e) {
        StepAccounts(before.state, e, init);
        StepEffects(before.state, e);
        LogConcat(before.effects, Step(before.state, e).effects);
      } else {
        AccountExtends(before.state, init, e);
      }
      hide Step, Enabled, Accounted, Terms, Kills, StartsShell;
      forall orders | orders in Shells(Run(events).effects) ensures Launched(events, orders) {
        HistoryExtends(init, e, None, orders);
      }
    } else {
      QuietLog([]);
    }
  }

  lemma AccountExtends(s: State, events: seq<Event>, e: Event)
    requires Accounted(s, events)
    ensures Accounted(s, events + [e])
  {
    if s.reply.Some? {
      HistoryExtends(events, e, if s.probes != [] && s.probes[0].RunnerGroup? then s.probes[0].own else None, s.reply.value);
    }
  }
}
