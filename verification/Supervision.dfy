/** What one run request does to its processes and descriptors (`handle_run_process`), as a log
    of actions, and the properties such logs are judged by. */
module Supervision {
  import opened Prelude
  import Shutdown
  import Tunnels

  type Name = Tunnels.TunnelName
  type Pid = Shutdown.Pid
  type PortMap = map<string, int>

  /** The three descriptors passed with the request, and those that `make_preexec_fn` opened. */
  datatype Fd = Standard(i: nat) | Namespace(i: nat)

  datatype Action =
    | Closed(fd: Fd)
    | Configured(first: bool, ports: PortMap)
    | Spawned(pid: Pid, command: string, restarts: nat)
    | Emitted(notice: Notice)
    | Killed(pid: Pid, signal: int)
    | Reaped(pid: Pid)

  datatype Notice = Started(pid: Pid) | Restarted(pid: Pid, ports: PortMap)

  type Log = seq<Action>

  // ------------------------------------------------------------------ what the awaits of one iteration bring

  /** The exit of the configure script; `Unrunnable` is any exception of starting it. */
  datatype Configure = NoScript | Unrunnable | Exit(code: int)

  /** `SpawnFails` is any exception but `FileNotFoundError`. */
  datatype SpawnResult = Child(pid: Pid) | Missing | SpawnFails

  /** A rebind kills the process group, which fails if the group is gone. */
  datatype Ending = Exited(code: int) | Rebound(killable: bool)

  /** What other handlers do to the process tables while this one is suspended. */
  datatype Change = DropAll(name: Name) | Add(name: Name, pid: Pid) | Remove(name: Name, pid: Pid) | Reset(name: Name)

  /** `context` is the tunnel's context at the top of the iteration. */
  datatype Round = Round(
    context: Option<Tunnels.Context>,
    configure: Configure,
    spawn: SpawnResult,
    whileSpawning: seq<Change>,
    announced: bool,
    whileWaiting: seq<Change>,
    ending: Ending,
    whileStopping: seq<Change>)

  /** `render` stands for the templates: a command line, or a template error. */
  datatype Request = Request(
    fds: nat, tunnel: Option<Name>, username: Option<string>, command: string, killWith: Option<int>,
    render: Option<Tunnels.Context> -> Option<string>)

  datatype Outcome = Terminated(code: int) | NotFound(command: string) | Raised | Suspended

  const SIGTERM: int := 15

  /** The signal of a restart: the request's own, or `SIGTERM` if it names none. */
  function KillSignal(request: Request): int {
    match request.killWith
    case Some(signal) => if signal == 0 then SIGTERM else signal
    case None => SIGTERM
  }

  predicate Returned(outcome: Outcome) {
    outcome.Terminated? || outcome.NotFound?
  }

  function PortsOf(context: Option<Tunnels.Context>): PortMap {
    match context
    case None => map[]
    case Some(c) => c.ports
  }

  predicate NotAdded(changes: seq<Change>, pid: Pid) {
    forall i :: 0 <= i < |changes| && changes[i].Add? ==> changes[i].pid != pid
  }

  /** Process ids are unique: nobody else enters one of this request's. */
  ghost predicate Foreign(changes: seq<Change>, rounds: seq<Round>) {
    forall k :: 0 <= k < |rounds| && rounds[k].spawn.Child? ==> NotAdded(changes, rounds[k].spawn.pid)
  }

  /** Somebody takes the process table of `name` away. */
  predicate Drops(changes: seq<Change>, name: Name) {
    exists i :: 0 <= i < |changes| && changes[i] == DropAll(name)
  }

  predicate DroppedBefore(rounds: seq<Round>, name: Name, k: nat) {
    exists i :: 0 <= i < k && i < |rounds|
                && (Drops(rounds[i].whileSpawning, name) || Drops(rounds[i].whileWaiting, name) || Drops(rounds[i].whileStopping, name))
  }

  /** The reasons for a call to raise once its loop has begun, `spawns` processes spawned and
      `notices` announced: the next process could not be spawned; the last one could not be recorded,
      its table having been taken away, or not be announced; or it could not be killed. */
  predicate Excused(request: Request, rounds: seq<Round>, name: Name, spawns: nat, notices: nat) {
    || (spawns == notices < |rounds| && rounds[spawns].spawn.SpawnFails? && request.render(rounds[spawns].context).Some?)
    || (spawns == notices + 1 <= |rounds|
        && (!rounds[notices].announced || DroppedBefore(rounds, name, notices) || Drops(rounds[notices].whileSpawning, name)))
    || (spawns == notices && 0 < spawns <= |rounds| && rounds[spawns - 1].ending == Rebound(false))
  }

  // ------------------------------------------------------------------ reading a log

  datatype Spawn = Spawn(pid: Pid, command: string, restarts: nat)

  function Spawns(log: Log): seq<Spawn> {
    if log == [] then []
    else
      var a := log[|log| - 1];
      if a.Spawned? then Spawns(log[..|log| - 1]) + [Spawn(a.pid, a.command, a.restarts)] else Spawns(log[..|log| - 1])
  }

  function Notices(log: Log): seq<Notice> {
    if log == [] then []
    else
      var a := log[|log| - 1];
      if a.Emitted? then Notices(log[..|log| - 1]) + [a.notice] else Notices(log[..|log| - 1])
  }

  datatype Kill = Kill(pid: Pid, signal: int)

  function Kills(log: Log): seq<Kill> {
    if log == [] then []
    else
      var a := log[|log| - 1];
      if a.Killed? then Kills(log[..|log| - 1]) + [Kill(a.pid, a.signal)] else Kills(log[..|log| - 1])
  }

  /** What the configure script was told. */
  datatype Payload = Payload(first: bool, ports: PortMap)

  /** The runs of the configure script, each under the number of processes spawned before it. */
  function Configs(log: Log): map<nat, Payload> {
    if log == [] then map[]
    else
      var front, a := log[..|log| - 1], log[|log| - 1];
      if a.Configured? then Configs(front)[|Spawns(front)| := Payload(a.first, a.ports)] else Configs(front)
  }

  function Closes(log: Log, fd: Fd): nat {
    if log == [] then 0 else Closes(log[..|log| - 1], fd) + if log[|log| - 1] == Closed(fd) then 1 else 0
  }

  /** The children of this request that have been spawned and not yet reaped. */
  function Living(log: Log): set<Pid> {
    if log == [] then {}
    else
      var before := Living(log[..|log| - 1]);
      match log[|log| - 1]
      case Spawned(pid, _, _) => before + {pid}
      case Reaped(pid) => before - {pid}
      case _ => before
  }

  ghost predicate AllOpen(log: Log) {
    forall fd :: Closes(log, fd) == 0
  }

  /** Whenever a process was spawned, none was alive and no descriptor had been closed. */
  ghost predicate SpawnsAlone(log: Log) {
    log == [] ||
    (SpawnsAlone(log[..|log| - 1])
     && (log[|log| - 1].Spawned? ==> Living(log[..|log| - 1]) == {} && AllOpen(log[..|log| - 1])))
  }

  /** Only a child that has been announced and not yet reaped is killed, which is the one spawned
      last, and once; and the configure script runs between processes, at most once. */
  ghost predicate InTurn(log: Log) {
    log == [] ||
    (var front, a := log[..|log| - 1], log[|log| - 1];
     && InTurn(front)
     && (a.Killed? ==>
           && a.pid in Living(front) && |Spawns(front)| == |Notices(front)| == |Kills(front)| + 1
           && Spawns(front)[|Kills(front)|].pid == a.pid)
     && (a.Configured? ==> Living(front) == {} && |Spawns(front)| !in Configs(front)))
  }

  function NoticeOf(k: nat, pid: Pid, context: Option<Tunnels.Context>): Notice {
    if k == 0 then Started(pid) else Restarted(pid, PortsOf(context))
  }

  /** The i-th spawn is the one of the i-th iteration: it carries restart count i and the command
      rendered from that iteration's context; and the i-th notice is about it, with the ports of
      that very context: a start first, and only restarts after it. */
  ghost predicate Matched(spawns: seq<Spawn>, notices: seq<Notice>, request: Request, rounds: seq<Round>) {
    && |notices| <= |spawns| <= |notices| + 1 && |spawns| <= |rounds|
    && (forall i :: 0 <= i < |spawns| ==>
          && spawns[i].restarts == i
          && rounds[i].spawn == Child(spawns[i].pid)
          && request.render(rounds[i].context) == Some(spawns[i].command))
    && (forall i :: 0 <= i < |notices| ==> notices[i] == NoticeOf(i, spawns[i].pid, rounds[i].context))
  }

  ghost predicate Paired(log: Log, request: Request, rounds: seq<Round>) {
    Matched(Spawns(log), Notices(log), request, rounds)
  }

  /** How a call ends that has spawned `k` processes. */
  function Result(request: Request, rounds: seq<Round>, k: nat): Option<Outcome>
    requires k <= |rounds|
  {
    if k > 0 && rounds[k - 1].ending.Exited? then Some(Terminated(rounds[k - 1].ending.code))
    else if k == |rounds| then None
    else
      match request.render(rounds[k].context)
      case None => Some(NotFound(request.command))
      case Some(command) =>
        if rounds[k].configure.Exit? && rounds[k].configure.code != 0 then
          Some(Terminated(if k == 0 then rounds[k].configure.code else 0))
        else if rounds[k].spawn.Missing? then Some(NotFound(command))
        else None
  }

  lemma Extend(log: Log, a: Action)
    ensures Spawns(log + [a]) == if a.Spawned? then Spawns(log) + [Spawn(a.pid, a.command, a.restarts)] else Spawns(log)
    ensures Notices(log + [a]) == if a.Emitted? then Notices(log) + [a.notice] else Notices(log)
    ensures forall fd :: Closes(log + [a], fd) == Closes(log, fd) + if a == Closed(fd) then 1 else 0
    ensures Living(log + [a]) ==
              if a.Spawned? then Living(log) + {a.pid} else if a.Reaped? then Living(log) - {a.pid} else Living(log)
    ensures SpawnsAlone(log + [a]) <==> SpawnsAlone(log) && (a.Spawned? ==> Living(log) == {} && AllOpen(log))
  {
    assert (log + [a])[..|log|] == log;
  }

  lemma ExtendBooks(log: Log, a: Action)
    ensures Kills(log + [a]) == if a.Killed? then Kills(log) + [Kill(a.pid, a.signal)] else Kills(log)
    ensures Configs(log + [a]) == if a.Configured? then Configs(log)[|Spawns(log)| := Payload(a.first, a.ports)] else Configs(log)
    ensures InTurn(log) && !a.Killed? && !a.Configured? ==> InTurn(log + [a])
  {
    assert (log + [a])[..|log|] == log;
  }

  /** At every moment of such a log at most one child is alive. */
  lemma {:induction false} AtMostOneAlive(log: Log, n: nat, p: Pid, q: Pid)
    requires SpawnsAlone(log) && n <= |log|
    ensures p in Living(log[..n]) && q in Living(log[..n]) ==> p == q
    decreases |log|
  {
    if n == |log| {
      assert log[..n] == log;
      if log != [] {
        AtMostOneAlive(log[..|log| - 1], |log| - 1, p, q);
        assert log[..|log| - 1][..|log| - 1] == log[..|log| - 1];
      }
    } else {
      AtMostOneAlive(log[..|log| - 1], n, p, q);
      assert log[..|log| - 1][..n] == log[..n];
    }
  }

  lemma {:induction false} OpenMeansNotClosed(log: Log, j: nat)
    requires AllOpen(log) && j < |log|
    ensures !log[j].Closed?
    decreases |log|
  {
    var front, a := log[..|log| - 1], log[|log| - 1];
    assert forall fd :: Closes(log, fd) == Closes(front, fd) + if a == Closed(fd) then 1 else 0;
    assert Closes(log, if a.Closed? then a.fd else Standard(0)) == 0;
    if j < |log| - 1 {
      OpenMeansNotClosed(front, j);
    }
  }

  /** No descriptor is closed ahead of a spawn. */
  lemma {:induction false} OpenAtEverySpawn(log: Log, i: nat, j: nat)
    requires SpawnsAlone(log) && i < |log| && j < |log| && log[i].Spawned? && log[j].Closed?
    ensures i < j
    decreases |log|
  {
    var front := log[..|log| - 1];
    if i == |log| - 1 {
      if j < i {
        OpenMeansNotClosed(front, j);
      }
    } else if j < |log| - 1 {
      OpenAtEverySpawn(front, i, j);
    }
  }

  /** The first `k` processes have been killed, each for the rebind that ended its iteration, and no
      others. */
  ghost predicate KillsDue(log: Log, request: Request, rounds: seq<Round>, k: nat) {
    && |Kills(log)| == k <= |Spawns(log)| && k <= |rounds|
    && (forall i :: 0 <= i < k ==>
          Kills(log)[i] == Kill(Spawns(log)[i].pid, KillSignal(request)) && rounds[i].ending == Rebound(true))
  }

  /** The script has run in those of the first `k` iterations that have one, with their ports. */
  ghost predicate ConfigsDue(log: Log, rounds: seq<Round>, k: nat) {
    && (forall i: nat :: i in Configs(log) <==> i < k && i < |rounds| && rounds[i].configure.Exit?)
    && (forall i :: i in Configs(log) ==> Configs(log)[i] == Payload(i == 0, PortsOf(rounds[i].context)))
  }

  ghost predicate Accounted(log: Log, request: Request, rounds: seq<Round>, kills: nat, configs: nat) {
    InTurn(log) && KillsDue(log, request, rounds, kills) && ConfigsDue(log, rounds, configs)
  }

  lemma AccountOther(log: Log, a: Action, request: Request, rounds: seq<Round>, kills: nat, configs: nat)
    requires Accounted(log, request, rounds, kills, configs) && !a.Killed? && !a.Configured?
    ensures Accounted(log + [a], request, rounds, kills, configs)
  {
    Extend(log, a);
    ExtendBooks(log, a);
  }

  lemma AccountConfig(log: Log, request: Request, rounds: seq<Round>, kills: nat, k: nat)
    requires Accounted(log, request, rounds, kills, k) && |Spawns(log)| == k < |rounds| && Living(log) == {}
    requires rounds[k].configure.Exit?
    ensures Accounted(log + [Configured(k == 0, PortsOf(rounds[k].context))], request, rounds, kills, k + 1)
  {
    var a := Configured(k == 0, PortsOf(rounds[k].context));
    Extend(log, a);
    ExtendBooks(log, a);
    assert (log + [a])[..|log|] == log;
  }

  lemma DueKill(log: Log, request: Request, rounds: seq<Round>, k: nat)
    requires KillsDue(log, request, rounds, k) && k < |Spawns(log)| && k < |rounds| && rounds[k].ending == Rebound(true)
    ensures KillsDue(log + [Killed(Spawns(log)[k].pid, KillSignal(request))], request, rounds, k + 1)
  {
    var a := Killed(Spawns(log)[k].pid, KillSignal(request));
    Extend(log, a);
    ExtendBooks(log, a);
  }

  lemma KillInTurn(log: Log, k: nat, signal: int)
    requires InTurn(log) && |Spawns(log)| == |Notices(log)| == k + 1 && |Kills(log)| == k && Spawns(log)[k].pid in Living(log)
    ensures InTurn(log + [Killed(Spawns(log)[k].pid, signal)])
  {
    assert (log + [Killed(Spawns(log)[k].pid, signal)])[..|log|] == log;
  }

  lemma AccountKill(log: Log, request: Request, rounds: seq<Round>, k: nat, configs: nat)
    requires Accounted(log, request, rounds, k, configs) && k < |rounds| && rounds[k].ending == Rebound(true)
    requires |Spawns(log)| == |Notices(log)| == k + 1 && Spawns(log)[k].pid in Living(log)
    ensures Accounted(log + [Killed(Spawns(log)[k].pid, KillSignal(request))], request, rounds, k + 1, configs)
  {
    DueKill(log, request, rounds, k);
    KillInTurn(log, k, KillSignal(request));
    ExtendBooks(log, Killed(Spawns(log)[k].pid, KillSignal(request)));
  }

  /** `log'` continues `log` without touching any process. */
  ghost predicate OnlyCloses(log: Log, log': Log) {
    && Spawns(log') == Spawns(log) && Notices(log') == Notices(log) && Living(log') == Living(log)
    && Kills(log') == Kills(log) && Configs(log') == Configs(log)
    && (SpawnsAlone(log) ==> SpawnsAlone(log')) && (InTurn(log) ==> InTurn(log'))
  }

  /** The closer made by `make_preexec_fn`: it empties its list, last descriptor first. */
  method CloseParents(log: Log, parents: nat) returns (log': Log)
    ensures OnlyCloses(log, log')
    ensures forall fd :: Closes(log', fd) == Closes(log, fd) + if fd.Namespace? && fd.i < parents then 1 else 0
  {
    log' := log;
    var left := parents;
    while left > 0
      invariant left <= parents && OnlyCloses(log, log')
      invariant forall fd :: Closes(log', fd) == Closes(log, fd) + if fd.Namespace? && left <= fd.i < parents then 1 else 0
    {
      left := left - 1;
      Extend(log', Closed(Namespace(left)));
      ExtendBooks(log', Closed(Namespace(left)));
      log' := log' + [Closed(Namespace(left))];
    }
  }

  /** The passed descriptors, each closed whether or not closing the one before failed. */
  method CloseStandard(log: Log) returns (log': Log)
    ensures OnlyCloses(log, log')
    ensures forall fd :: Closes(log', fd) == Closes(log, fd) + if fd.Standard? && fd.i < 3 then 1 else 0
  {
    log' := log;
    for i := 0 to 3
      invariant OnlyCloses(log, log')
      invariant forall fd :: Closes(log', fd) == Closes(log, fd) + if fd.Standard? && fd.i < i then 1 else 0
    {
      Extend(log', Closed(Standard(i)));
      ExtendBooks(log', Closed(Standard(i)));
      log' := log' + [Closed(Standard(i))];
    }
  }

  /** Every descriptor has been closed exactly once. */
  ghost predicate EachClosedOnce(log: Log, parents: nat) {
    forall fd :: Closes(log, fd) == if (fd.Standard? && fd.i < 3) || (fd.Namespace? && fd.i < parents) then 1 else 0
  }

  /** A call that has returned got to iteration `k` and rendered its command there. */
  predicate Tried(request: Request, rounds: seq<Round>, k: nat) {
    k < |rounds| && (k > 0 ==> rounds[k - 1].ending.Rebound?) && request.render(rounds[k].context).Some?
  }

  /** The books of a call that has come to an end: of the processes that were announced, those whose
      iteration ended in a rebind were killed, if they could be; and the script was run as due. */
  ghost predicate Settled(outcome: Outcome, log: Log, request: Request, rounds: seq<Round>) {
    && InTurn(log) && KillsDue(log, request, rounds, |Kills(log)|) && |Kills(log)| <= |Notices(log)|
    && (forall i: nat :: |Kills(log)| <= i < |Notices(log)| && i < |rounds| ==> rounds[i].ending != Rebound(true))
    && (Returned(outcome) ==> ConfigsDue(log, rounds, |Spawns(log)| + if Tried(request, rounds, |Spawns(log)|) then 1 else 0))
    && (!Returned(outcome) ==> ConfigsDue(log, rounds, |Spawns(log)|) || ConfigsDue(log, rounds, |Spawns(log)| + 1))
  }

  /** What holds of a call that has come to an end: if it returned, one notice per spawn, no child
      left, every descriptor closed once, and the outcome the one due; if not, all still open. */
  ghost predicate Ended(outcome: Outcome, log: Log, request: Request, rounds: seq<Round>, parents: nat) {
    && Paired(log, request, rounds) && SpawnsAlone(log) && Settled(outcome, log, request, rounds)
    && (Returned(outcome) ==>
          && |Notices(log)| == |Spawns(log)| && Living(log) == {} && EachClosedOnce(log, parents)
          && Result(request, rounds, |Spawns(log)|) == Some(outcome))
    && (!Returned(outcome) ==> AllOpen(log))
  }

  /** A call in the middle: `k` processes spawned and announced, none alive, nothing closed, and the
      configure script run `configs` times. */
  ghost predicate Between(log: Log, request: Request, rounds: seq<Round>, k: nat, configs: nat) {
    && Paired(log, request, rounds) && SpawnsAlone(log) && Living(log) == {} && AllOpen(log)
    && |Spawns(log)| == k && |Notices(log)| == k && Accounted(log, request, rounds, k, configs)
    && (forall i :: 0 <= i < k ==> rounds[i].ending.Rebound?)
  }

  /** A call in the middle of iteration `k`: its process has been spawned and is alive. */
  ghost predicate During(log: Log, request: Request, rounds: seq<Round>, k: nat, announced: bool) {
    && Paired(log, request, rounds) && SpawnsAlone(log) && AllOpen(log)
    && |Spawns(log)| == k + 1 && Living(log) == {Spawns(log)[k].pid}
    && |Notices(log)| == (if announced then k + 1 else k) && Accounted(log, request, rounds, k, k + 1)
    && (forall i :: 0 <= i < k ==> rounds[i].ending.Rebound?)
  }

  lemma LogConfigured(log: Log, request: Request, rounds: seq<Round>, k: nat)
    requires Between(log, request, rounds, k, k) && k < |rounds| && rounds[k].configure.Exit?
    ensures Between(log + [Configured(k == 0, PortsOf(rounds[k].context))], request, rounds, k, k + 1)
  {
    Extend(log, Configured(k == 0, PortsOf(rounds[k].context)));
    AccountConfig(log, request, rounds, k, k);
  }

  /** Without a script there is nothing to run. */
  lemma NothingConfigured(log: Log, request: Request, rounds: seq<Round>, k: nat)
    requires Between(log, request, rounds, k, k) && k < |rounds| && !rounds[k].configure.Exit?
    ensures Between(log, request, rounds, k, k + 1)
  {
    assert forall i: nat :: i < k + 1 && i < |rounds| && rounds[i].configure.Exit? ==> i < k;
  }

  lemma MatchSpawn(spawns: seq<Spawn>, notices: seq<Notice>, request: Request, rounds: seq<Round>, pid: Pid, command: string)
    requires Matched(spawns, notices, request, rounds) && |spawns| == |notices| < |rounds|
    requires rounds[|spawns|].spawn == Child(pid) && request.render(rounds[|spawns|].context) == Some(command)
    ensures Matched(spawns + [Spawn(pid, command, |spawns|)], notices, request, rounds)
  {
  }

  lemma MatchNotice(spawns: seq<Spawn>, notices: seq<Notice>, request: Request, rounds: seq<Round>, notice: Notice)
    requires Matched(spawns, notices, request, rounds) && |spawns| == |notices| + 1
    requires notice == NoticeOf(|notices|, spawns[|notices|].pid, rounds[|notices|].context)
    ensures Matched(spawns, notices + [notice], request, rounds)
  {
  }

  lemma LogSpawn(log: Log, request: Request, rounds: seq<Round>, k: nat, pid: Pid, command: string)
    requires Between(log, request, rounds, k, k + 1) && k < |rounds|
    requires rounds[k].spawn == Child(pid) && request.render(rounds[k].context) == Some(command)
    ensures During(log + [Spawned(pid, command, k)], request, rounds, k, false)
  {
    Extend(log, Spawned(pid, command, k));
    AccountOther(log, Spawned(pid, command, k), request, rounds, k, k + 1);
    MatchSpawn(Spawns(log), Notices(log), request, rounds, pid, command);
  }

  lemma LogNotice(log: Log, request: Request, rounds: seq<Round>, k: nat, notice: Notice)
    requires During(log, request, rounds, k, false)
    requires notice == NoticeOf(k, Spawns(log)[k].pid, rounds[k].context)
    ensures During(log + [Emitted(notice)], request, rounds, k, true)
  {
    Extend(log, Emitted(notice));
    AccountOther(log, Emitted(notice), request, rounds, k, k + 1);
    MatchNotice(Spawns(log), Notices(log), request, rounds, notice);
  }

  /** The process has exited by itself. */
  lemma LogReaped(log: Log, request: Request, rounds: seq<Round>, k: nat)
    requires During(log, request, rounds, k, true)
    ensures var log' := log + [Reaped(Spawns(log)[k].pid)];
            && Spawns(log') == Spawns(log) && |Notices(log')| == k + 1 && Accounted(log', request, rounds, k, k + 1)
            && Paired(log', request, rounds) && SpawnsAlone(log') && Living(log') == {} && AllOpen(log')
  {
    Extend(log, Reaped(Spawns(log)[k].pid));
    AccountOther(log, Reaped(Spawns(log)[k].pid), request, rounds, k, k + 1);
  }

  /** The process is killed and then reaped. */
  lemma LogKilled(log: Log, request: Request, rounds: seq<Round>, k: nat)
    requires During(log, request, rounds, k, true) && k < |rounds| && rounds[k].ending == Rebound(true)
    ensures var pid := Spawns(log)[k].pid;
            var log' := log + [Killed(pid, KillSignal(request))] + [Reaped(pid)];
            Between(log', request, rounds, k + 1, k + 1) && Kills(log') == Kills(log) + [Kill(pid, KillSignal(request))]
  {
    var pid := Spawns(log)[k].pid;
    var killed := log + [Killed(pid, KillSignal(request))];
    Extend(log, Killed(pid, KillSignal(request)));
    AccountKill(log, request, rounds, k, k + 1);
    ExtendBooks(log, Killed(pid, KillSignal(request)));
    Extend(killed, Reaped(pid));
    ExtendBooks(killed, Reaped(pid));
    AccountOther(killed, Reaped(pid), request, rounds, k + 1, k + 1);
  }

  /** An exception in the middle of an iteration leaves everything as it is. */
  lemma RaisedDuring(log: Log, request: Request, rounds: seq<Round>, k: nat, announced: bool, parents: nat)
    requires During(log, request, rounds, k, announced) && k < |rounds|
    requires announced ==> rounds[k].ending == Rebound(false)
    ensures Ended(Raised, log, request, rounds, parents)
  {
  }

  lemma NothingDone(request: Request, rounds: seq<Round>, parents: nat)
    ensures Between([], request, rounds, 0, 0) && Ended(Raised, [], request, rounds, parents)
  {
  }

  lemma StillAtIt(log: Log, request: Request, rounds: seq<Round>, parents: nat)
    requires Between(log, request, rounds, |rounds|, |rounds|)
    ensures Ended(Suspended, log, request, rounds, parents)
  {
  }

  /** The process of iteration `k` has exited and has been reaped, and then only descriptors were closed. */
  lemma ExitEnds(log: Log, reaped: Log, log': Log, request: Request, rounds: seq<Round>, k: nat, parents: nat)
    requires During(log, request, rounds, k, true) && k < |rounds| && rounds[k].ending.Exited?
    requires reaped == log + [Reaped(Spawns(log)[k].pid)] && OnlyCloses(reaped, log') && EachClosedOnce(log', parents)
    ensures Ended(Terminated(rounds[k].ending.code), log', request, rounds, parents) && |Spawns(log')| == k + 1
  {
    LogReaped(log, request, rounds, k);
  }

  /** The exits of an iteration that has spawned nothing. */
  method CloseAll(log: Log, parents: nat, ghost request: Request, ghost rounds: seq<Round>, ghost k: nat, ghost outcome: Outcome)
    returns (log': Log)
    requires Between(log, request, rounds, k, if Tried(request, rounds, k) then k + 1 else k) && k <= |rounds|
    requires Returned(outcome) && Result(request, rounds, k) == Some(outcome)
    ensures Ended(outcome, log', request, rounds, parents) && |Spawns(log')| == k
  {
    log' := CloseParents(log, parents);
    log' := CloseStandard(log');
  }

  // ------------------------------------------------------------------ what an ended call has done

  /** The kills, one by one: the processes killed are those that were announced and whose iteration
      ended in a rebind, if they could be killed; each is killed once, in the order of their spawns,
      by the signal that the request names, or by 15 if it names none. */
  lemma KillsAreTheRebinds(outcome: Outcome, log: Log, request: Request, rounds: seq<Round>, parents: nat, i: nat)
    requires Ended(outcome, log, request, rounds, parents) && i < |Notices(log)|
    ensures |Notices(log)| <= |Spawns(log)| && |Spawns(log)| <= |rounds| && |Kills(log)| <= |Notices(log)|
    ensures i < |Kills(log)| <==> rounds[i].ending == Rebound(true)
    ensures i < |Kills(log)| ==> Kills(log)[i].pid == Spawns(log)[i].pid
    ensures i < |Kills(log)| ==>
              Kills(log)[i].signal == if request.killWith == None || request.killWith == Some(0) then 15 else request.killWith.value
  {
  }

  /** A kill comes after the notice about its process and before that process is reaped. */
  lemma {:induction false} KilledWhileAnnounced(log: Log, j: nat)
    requires InTurn(log) && j < |log| && log[j].Killed?
    ensures var k := |Kills(log[..j])|;
      && |Spawns(log[..j])| == |Notices(log[..j])| == k + 1 && Spawns(log[..j])[k].pid == log[j].pid
      && log[j].pid in Living(log[..j])
    decreases |log|
  {
    if j < |log| - 1 {
      KilledWhileAnnounced(log[..|log| - 1], j);
      assert log[..|log| - 1][..j] == log[..j];
    }
  }

  /** What the client and the configure script are told: of every process announced, a start first
      and only restarts after it, with the ports of the context its command was rendered from; and
      before each process that was spawned the script has been run, if there is one, with the same
      ports, and as the first time only before the first. */
  lemma NoticesAndPayloads(outcome: Outcome, log: Log, request: Request, rounds: seq<Round>, parents: nat, i: nat)
    requires Ended(outcome, log, request, rounds, parents)
    ensures |Notices(log)| <= |Spawns(log)| <= |rounds|
    ensures i < |Notices(log)| ==>
              var notice, pid := Notices(log)[i], Spawns(log)[i].pid;
              && (i == 0 ==> notice == Started(pid))
              && (i > 0 && rounds[i].context.Some? ==> notice == Restarted(pid, rounds[i].context.value.ports))
              && (i > 0 && rounds[i].context.None? ==> notice == Restarted(pid, map[]))
    ensures i < |Spawns(log)| ==> (i in Configs(log) <==> rounds[i].configure.Exit?)
    ensures i in Configs(log) ==>
              && i < |rounds| && (Configs(log)[i].first <==> i == 0)
              && (rounds[i].context.Some? ==> Configs(log)[i].ports == rounds[i].context.value.ports)
              && (rounds[i].context.None? ==> Configs(log)[i].ports == map[])
  {
  }

  /** How a call that returns has come to its outcome: its last process has exited with that code;
      or no further one was spawned, because the template failed, because the configure script did,
      or because there is no such command. */
  lemma OutcomeIsDue(outcome: Outcome, log: Log, request: Request, rounds: seq<Round>, parents: nat)
    requires Ended(outcome, log, request, rounds, parents) && Returned(outcome)
    ensures var n := |Spawns(log)|;
      || (0 < n <= |rounds| && outcome.Terminated? && rounds[n - 1].ending == Exited(outcome.code))
      || (n < |rounds| && request.render(rounds[n].context).None? && outcome == NotFound(request.command))
      || (n < |rounds| && rounds[n].configure.Exit? && rounds[n].configure.code != 0 && n in Configs(log)
          && outcome == Terminated(if n == 0 then rounds[n].configure.code else 0))
      || (n < |rounds| && rounds[n].spawn == Missing && outcome.NotFound? && request.render(rounds[n].context) == Some(outcome.command))
  {
  }
}
