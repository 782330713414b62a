/** The core's IPC server: one client loop a connection, one task a request, interleaved at every await. */
module IpcServers {
  import opened Prelude

  /** A field of a JSON object. */
  datatype Field = Absent | Text(value: string) | NotText

  /** What reading yields: a blank line, an undecodable or oversized one, JSON that is no object, or an object.
      `restValid` says whether its other fields fit the request schema. */
  datatype Frame =
    | Blank
    | Unreadable
    | NotAnObject
    | Message(id: Field, kind: Field, version: Field, restValid: bool)

  datatype Code =
    | NoError | InvalidJson | VersionMismatch | HandshakeRequired | InvalidSchema | ServerBusy
    | MethodNotFound | ExecutionError | RequestTimeout | InternalError

  datatype Reply = Reply(id: string, kind: string, success: bool, code: Code)

  /** What the loop does once its reply is written. */
  datatype After = Continue | Accept | HangUp

  datatype Action =
    | Skip
    | Fail
    | Answer(reply: Reply, after: After)
    | Launch(id: string, kind: string)

  const HANDSHAKE := "ipc.handshake"
  const VERSION := "1.0"

  function TextOr(f: Field, default: string): Option<string> {
    match f
    case Absent => Some(default)
    case Text(v) => Some(v)
    case NotText => None
  }

  /** A failed reply, or the exception of building one around something that is no text. */
  function Refuse(id: Option<string>, kind: Option<string>, code: Code, after: After): Action {
    if id.Some? && kind.Some? then Answer(Reply(id.value, kind.value, false, code), after) else Fail
  }

  predicate ValidRequest(f: Frame)
    requires f.Message?
  {
    f.id.Text? && f.kind.Text? && (f.version.Absent? || f.version == Text(VERSION)) && f.restValid
  }

  /** What the client loop does with a frame. */
  function Handle(handshakeDone: bool, busy: bool, f: Frame): Action {
    match f
    case Blank => Skip
    case Unreadable => Fail
    case NotAnObject => Refuse(Some("unknown"), Some("error.protocol"), InvalidJson, Continue)
    case Message(id, kind, version, _) =>
      if !handshakeDone then
        if kind != Text(HANDSHAKE) then
          Refuse(TextOr(id, "unknown"), Some("error.handshake_required"), HandshakeRequired, HangUp)
        else if version != Text(VERSION) then
          Refuse(TextOr(id, "handshake_init"), Some(HANDSHAKE), VersionMismatch, HangUp)
        else if id.NotText? then Fail
        else Answer(Reply(TextOr(id, "handshake_init").value, HANDSHAKE, true, NoError), Accept)
      else if !ValidRequest(f) then
        Refuse(TextOr(id, "unknown"), TextOr(kind, "error.schema"), InvalidSchema, Continue)
      else if busy then
        Refuse(Some(id.value), Some(kind.value), ServerBusy, Continue)
      else Launch(id.value, kind.value)
  }

  /** The frames that are never answered: blank ones, unreadable ones, and those whose id
      (or, after the handshake, type) is present but no text, which end the loop. */
  predicate Silent(handshakeDone: bool, f: Frame) {
    match f
    case Blank => true
    case Unreadable => true
    case NotAnObject => false
    case Message(id, kind, _, _) => id.NotText? || (handshakeDone && kind.NotText?)
  }

  lemma HandleLaw(handshakeDone: bool, busy: bool, f: Frame)
    ensures var a := Handle(handshakeDone, busy, f);
            && (a.Skip? || a.Fail? <==> Silent(handshakeDone, f))
            && (a.Launch? <==>
                  && handshakeDone && !busy && f.Message? && f.id.Text? && f.kind.Text?
                  && (f.version.Absent? || f.version == Text("1.0")) && f.restValid)
            && (a.Launch? ==> f.id == Text(a.id) && f.kind == Text(a.kind))
            && (a.Answer? && a.after == Accept <==> !handshakeDone && OpeningHandshake(f))
            && (f.Message? && f.id.Text? && a.Answer? ==> a.reply.id == f.id.value)
            && (a.Answer? && a.after == Accept ==> a.reply.success && a.reply.kind == HANDSHAKE)
  {
  }

  /** What the loop's own replies say: success only to an opening handshake, otherwise the cause, and the two handshake
      refusals hang up. */
  lemma RefusalLaw(handshakeDone: bool, busy: bool, f: Frame)
    requires Handle(handshakeDone, busy, f).Answer?
    ensures var Answer(reply, after) := Handle(handshakeDone, busy, f);
            && (reply.success <==> reply.code == NoError) && (reply.code == NoError <==> after == Accept)
            && (after == HangUp <==> reply.code in {HandshakeRequired, VersionMismatch})
            && (reply.code == InvalidJson <==> f.NotAnObject?)
            && (reply.code == HandshakeRequired <==> f.Message? && !handshakeDone && f.kind != Text("ipc.handshake"))
            && (reply.code == VersionMismatch <==>
                  f.Message? && !handshakeDone && f.kind == Text("ipc.handshake") && f.version != Text("1.0"))
            && (reply.code == InvalidSchema <==> f.Message? && handshakeDone && !ValidRequest(f))
            && (reply.code == ServerBusy <==> f.Message? && handshakeDone && ValidRequest(f))
            && (reply.code == ServerBusy ==> busy)
  {
  }

  /** Under which id and type they say it: the frame's own where they are text, otherwise a stand-in. */
  lemma RefusalNames(handshakeDone: bool, busy: bool, f: Frame)
    requires Handle(handshakeDone, busy, f).Answer?
    ensures var reply := Handle(handshakeDone, busy, f).reply;
            && reply.id == (if f.Message? && f.id.Text? then f.id.value
                            else if f.Message? && !handshakeDone && f.kind == Text("ipc.handshake")
                            then "handshake_init"
                            else "unknown")
            && reply.kind == (if f.NotAnObject? then "error.protocol"
                              else if !handshakeDone && f.kind != Text("ipc.handshake") then "error.handshake_required"
                              else if f.kind.Text? then f.kind.value
                              else "error.schema")
  {
  }

  /** A handshake of the supported version, with no id or a textual one. */
  predicate OpeningHandshake(f: Frame) {
    f.Message? && f.kind == Text(HANDSHAKE) && f.version == Text(VERSION) && !f.id.NotText?
  }

  // ---------- state ----------

  datatype Phase = Reading | Writing(after: After) | Closed

  /** A frame as it was read: the gate and the load found, the replies written to it so far, the task it launched. */
  datatype Read = Read(frame: Frame, gate: bool, busy: bool, replies: seq<Reply>, task: Option<nat>)

  datatype Connection = Connection(phase: Phase, handshakeDone: bool, history: seq<Read>)

  datatype TaskPhase = Created | Running | Responding | TimingOut | ReportingFailure | Finished(resent: bool)

  /** A launched request: where it came from, how far it is, and how its dispatch ended. */
  datatype RequestTask = RequestTask(
    conn: nat,
    frame: nat,
    id: string,
    kind: string,
    phase: TaskPhase,
    outcome: Option<Outcome>)

  datatype Server = Server(
    connections: seq<Connection>,
    tasks: seq<RequestTask>,
    activeRequests: int,
    totalHandled: int,
    activeClients: set<nat>)

  const IDLE := Server([], [], 0, 0, {})

  datatype Config = Config(maxConcurrent: int, methods: set<string>)

  /** How a registered handler ends. */
  datatype Outcome = Returns | Raises | TimesOut

  datatype Event =
    | Connects
    | Reads(conn: nat, frame: Frame)
    | LoopWrote(conn: nat, failed: bool)
    | Ends(conn: nat)
    | Starts(task: nat)
    | Handled(task: nat, outcome: Outcome)
    | TaskWrote(task: nat, failed: bool)

  function Act(r: Read): Action {
    Handle(r.gate, r.busy, r.frame)
  }

  /** One more reply to a frame that was read. */
  function AddReply(s: Server, c: nat, i: nat, reply: Reply): Server {
    if c >= |s.connections| || i >= |s.connections[c].history| then s
    else
      var k := s.connections[c];
      var r := k.history[i];
      s.(connections := s.connections[c := k.(history := k.history[i := r.(replies := r.replies + [reply])])])
  }

  function SetPhase(s: Server, t: nat, phase: TaskPhase): Server
    requires t < |s.tasks|
  {
    s.(tasks := s.tasks[t := s.tasks[t].(phase := phase)])
  }

  function SetOutcome(s: Server, t: nat, phase: TaskPhase, o: Outcome): Server
    requires t < |s.tasks|
  {
    s.(tasks := s.tasks[t := s.tasks[t].(phase := phase, outcome := Some(o))])
  }

  /** The dispatcher's normalized answer. */
  function Dispatched(cfg: Config, task: RequestTask, o: Outcome): Reply {
    if task.kind !in cfg.methods then Reply(task.id, task.kind, false, MethodNotFound)
    else if o.Raises? then Reply(task.id, task.kind, false, ExecutionError)
    else Reply(task.id, task.kind, true, NoError)
  }

  ghost predicate Enabled(cfg: Config, s: Server, e: Event) {
    match e
    case Connects => true
    case Reads(c, _) => c < |s.connections| && s.connections[c].phase.Reading?
    case LoopWrote(c, _) => c < |s.connections| && s.connections[c].phase.Writing?
    case Ends(c) => c < |s.connections| && s.connections[c].phase.Reading?
    case Starts(t) => t < |s.tasks| && s.tasks[t].phase.Created?
    case Handled(t, o) => t < |s.tasks| && s.tasks[t].phase.Running? && (o.TimesOut? ==> s.tasks[t].kind in cfg.methods)
    case TaskWrote(t, _) =>
      t < |s.tasks| && !s.tasks[t].phase.Created? && !s.tasks[t].phase.Running? && !s.tasks[t].phase.Finished?
  }

  /** Tasks point at the frames they came from. */
  ghost predicate Anchored(s: Server) {
    forall t :: 0 <= t < |s.tasks| ==>
      var task := s.tasks[t];
      && task.conn < |s.connections| && task.frame < |s.connections[task.conn].history|
      && var r := s.connections[task.conn].history[task.frame];
         r.task == Some(t) && Act(r) == Launch(task.id, task.kind)
  }

  function CloseConnection(s: Server, c: nat): Server
    requires c < |s.connections|
  {
    s.(connections := s.connections[c := s.connections[c].(phase := Closed)], activeClients := s.activeClients - {c})
  }

  function OnRead(cfg: Config, s: Server, c: nat, f: Frame): Server
    requires c < |s.connections|
  {
    var k := s.connections[c];
    var busy := s.activeRequests >= cfg.maxConcurrent;
    var read := Read(f, k.handshakeDone, busy, [], None);
    match Handle(k.handshakeDone, busy, f)
    case Skip => s.(connections := s.connections[c := k.(history := k.history + [read])])
    case Fail => CloseConnection(s.(connections := s.connections[c := k.(history := k.history + [read])]), c)
    case Answer(reply, after) =>
      var answered := k.(history := k.history + [read.(replies := [reply])], phase := Writing(after));
      s.(connections := s.connections[c := answered])
    case Launch(id, kind) =>
      s.(connections := s.connections[c := k.(history := k.history + [read.(task := Some(|s.tasks|))])],
         tasks := s.tasks + [RequestTask(c, |k.history|, id, kind, Created, None)])
  }

  function OnLoopWrote(s: Server, c: nat, failed: bool): Server
    requires c < |s.connections| && s.connections[c].phase.Writing?
  {
    var k := s.connections[c];
    if failed || k.phase.after == HangUp then CloseConnection(s, c)
    else if k.phase.after == Accept then
      s.(connections := s.connections[c := k.(phase := Reading, handshakeDone := true)],
         activeClients := s.activeClients + {c})
    else s.(connections := s.connections[c := k.(phase := Reading)])
  }

  function OnHandled(cfg: Config, s: Server, t: nat, o: Outcome): Server
    requires t < |s.tasks|
  {
    var task := s.tasks[t];
    if o.TimesOut? then
      SetOutcome(AddReply(s, task.conn, task.frame, Reply(task.id, task.kind, false, RequestTimeout)), t, TimingOut, o)
    else
      SetOutcome(AddReply(s, task.conn, task.frame, Dispatched(cfg, task, o)), t, Responding, o)
  }

  function Finish(s: Server, t: nat, resent: bool): Server
    requires t < |s.tasks|
  {
    SetPhase(s, t, Finished(resent)).(activeRequests := s.activeRequests - 1)
  }

  function OnTaskWrote(s: Server, t: nat, failed: bool): Server
    requires t < |s.tasks|
  {
    var task := s.tasks[t];
    if task.phase.Responding? && failed then
      SetPhase(AddReply(s, task.conn, task.frame, Reply(task.id, task.kind, false, InternalError)), t, ReportingFailure)
    else Finish(s, t, task.phase.ReportingFailure?)
  }

  function Step(cfg: Config, s: Server, e: Event): Server
    requires Enabled(cfg, s, e)
  {
    match e
    case Connects => s.(connections := s.connections + [Connection(Reading, false, [])])
    case Reads(c, f) => OnRead(cfg, s, c, f)
    case LoopWrote(c, failed) => OnLoopWrote(s, c, failed)
    case Ends(c) => CloseConnection(s, c)
    case Starts(t) =>
      SetPhase(s, t, Running).(activeRequests := s.activeRequests + 1, totalHandled := s.totalHandled + 1)
    case Handled(t, o) => OnHandled(cfg, s, t, o)
    case TaskWrote(t, failed) => OnTaskWrote(s, t, failed)
  }

  // ---------- invariants ----------

  ghost predicate Opened(history: seq<Read>, n: nat) {
    exists j :: 0 <= j < n && j < |history| && Opens(history[j])
  }

  predicate Opens(r: Read) {
    Act(r).Answer? && Act(r).after == Accept
  }

  /** Each frame met the gate as the handshakes before it had left it. */
  ghost predicate GateKept(k: Connection) {
    && (forall i :: 0 <= i < |k.history| ==> (k.history[i].gate <==> Opened(k.history, i)))
    && (k.phase.Reading? ==> (k.handshakeDone <==> Opened(k.history, |k.history|)))
    && (k.phase.Writing? ==>
          && k.history != []
          && var last := k.history[|k.history| - 1];
             Act(last).Answer? && Act(last).after == k.phase.after && (k.handshakeDone <==> last.gate))
  }

  ghost predicate Gated(s: Server) {
    forall c :: 0 <= c < |s.connections| ==> GateKept(s.connections[c])
  }

  /** A frame after which the loop reads no more: a fatal one, or one refused with a hang-up. */
  predicate EndsLoop(r: Read) {
    Act(r).Fail? || (Act(r).Answer? && Act(r).after == HangUp)
  }

  /** Such a frame is the last of its connection, which is closed, or about to be once the refusal is written. */
  ghost predicate EndsWell(k: Connection) {
    forall i :: 0 <= i < |k.history| && EndsLoop(k.history[i]) ==>
      && i == |k.history| - 1
      && (k.phase.Closed? || (Act(k.history[i]).Answer? && k.phase == Writing(HangUp)))
  }

  ghost predicate Ended(s: Server) {
    forall c :: 0 <= c < |s.connections| ==> EndsWell(s.connections[c])
  }

  /** What the answer to a request of this kind says about how its dispatch ended. */
  ghost predicate Tells(cfg: Config, kind: string, o: Outcome, reply: Reply) {
    && (reply.success <==> kind in cfg.methods && o.Returns?)
    && (reply.code == NoError <==> reply.success)
    && (reply.code == MethodNotFound <==> kind !in cfg.methods)
    && (reply.code == ExecutionError <==> kind in cfg.methods && o.Raises?)
    && (reply.code == RequestTimeout <==> o.TimesOut?)
  }

  /** The replies of a task carry its id and kind; the first tells its outcome, a second one an internal error. */
  ghost predicate Truthful(cfg: Config, replies: seq<Reply>, task: RequestTask) {
    && (forall i :: 0 <= i < |replies| ==> replies[i].id == task.id && replies[i].kind == task.kind)
    && (|replies| > 0 ==> task.outcome.Some? && Tells(cfg, task.kind, task.outcome.value, replies[0]))
    && (|replies| > 1 ==> !replies[1].success && replies[1].code == InternalError)
  }

  /** How many replies a task has written. */
  function Written(phase: TaskPhase): nat {
    match phase
    case Created => 0
    case Running => 0
    case Responding => 1
    case TimingOut => 1
    case ReportingFailure => 2
    case Finished(resent) => if resent then 2 else 1
  }

  ghost predicate Accounted(cfg: Config, s: Server, c: nat, i: nat, r: Read) {
    match Act(r)
    case Skip => r.replies == [] && r.task.None?
    case Fail => r.replies == [] && r.task.None?
    case Answer(reply, _) => r.replies == [reply] && r.task.None?
    case Launch(id, kind) =>
      r.task.Some? && r.task.value < |s.tasks| &&
      var task := s.tasks[r.task.value];
      && task.conn == c && task.frame == i && task.id == id && task.kind == kind
      && |r.replies| == Written(task.phase) && Truthful(cfg, r.replies, task)
  }

  ghost predicate RepliesAccounted(cfg: Config, s: Server) {
    forall c, i :: 0 <= c < |s.connections| && 0 <= i < |s.connections[c].history| ==>
      Accounted(cfg, s, c, i, s.connections[c].history[i])
  }

  function Started(): RequestTask -> bool {
    (t: RequestTask) => !t.phase.Created?
  }

  function Done(): RequestTask -> bool {
    (t: RequestTask) => t.phase.Finished?
  }

  function Count(tasks: seq<RequestTask>, p: RequestTask -> bool): nat {
    if tasks == [] then 0 else (if p(tasks[0]) then 1 else 0) + Count(tasks[1..], p)
  }

  ghost predicate Counted(s: Server) {
    && s.activeRequests == Count(s.tasks, Started()) - Count(s.tasks, Done())
    && s.totalHandled == Count(s.tasks, Started())
  }

  /** Events are broadcast to the connections that shook hands and are still open. */
  ghost predicate ClientsKept(s: Server) {
    forall c: nat :: c in s.activeClients <==>
      c < |s.connections| && s.connections[c].handshakeDone && !s.connections[c].phase.Closed?
  }

  // ---------- counting ----------

  lemma {:induction false} CountSet(tasks: seq<RequestTask>, t: nat, x: RequestTask, p: RequestTask -> bool)
    requires t < |tasks|
    ensures Count(tasks[t := x], p) ==
              Count(tasks, p) - (if p(tasks[t]) then 1 else 0) + (if p(x) then 1 else 0)
  {
    var u := tasks[t := x];
    if t == 0 {
      assert u[1..] == tasks[1..];
    } else {
      assert u[1..] == tasks[1..][t - 1 := x];
      CountSet(tasks[1..], t - 1, x, p);
    }
  }

  lemma {:induction false} CountAppend(tasks: seq<RequestTask>, x: RequestTask, p: RequestTask -> bool)
    ensures Count(tasks + [x], p) == Count(tasks, p) + if p(x) then 1 else 0
  {
    if tasks == [] {
      assert tasks + [x] == [x];
    } else {
      assert (tasks + [x])[1..] == tasks[1..] + [x];
      CountAppend(tasks[1..], x, p);
    }
  }

  lemma {:induction false} CountNeverLess(tasks: seq<RequestTask>)
    ensures Count(tasks, Done()) <= Count(tasks, Started())
  {
    if tasks != [] {
      CountNeverLess(tasks[1..]);
    }
  }

  // ---------- every step keeps them ----------

  lemma ReadKeepsCounts(cfg: Config, s: Server, c: nat, f: Frame)
    requires c < |s.connections| && Counted(s)
    ensures Counted(OnRead(cfg, s, c, f))
  {
    var s' := OnRead(cfg, s, c, f);
    if |s'.tasks| > |s.tasks| {
      var x := s'.tasks[|s.tasks|];
      CountAppend(s.tasks, x, Started());
      CountAppend(s.tasks, x, Done());
    }
  }

  lemma StepKeepsCounts(cfg: Config, s: Server, e: Event)
    requires Anchored(s) && Enabled(cfg, s, e) && Counted(s)
    ensures Counted(Step(cfg, s, e))
  {
    var s' := Step(cfg, s, e);
    match e
    case Reads(c, f) => ReadKeepsCounts(cfg, s, c, f);
    case Starts(t) => TaskCounts(s.tasks, t, s'.tasks[t]);
    case Handled(t, _) => TaskCounts(s.tasks, t, s'.tasks[t]);
    case TaskWrote(t, _) => TaskCounts(s.tasks, t, s'.tasks[t]);
    case _ =>
  }

  lemma TaskCounts(tasks: seq<RequestTask>, t: nat, x: RequestTask)
    requires t < |tasks|
    ensures Count(tasks[t := x], Started()) ==
              Count(tasks, Started()) - (if tasks[t].phase.Created? then 0 else 1) + (if x.phase.Created? then 0 else 1)
    ensures Count(tasks[t := x], Done()) ==
              Count(tasks, Done()) - (if tasks[t].phase.Finished? then 1 else 0) + (if x.phase.Finished? then 1 else 0)
  {
    CountSet(tasks, t, x, Started());
    CountSet(tasks, t, x, Done());
  }

  lemma StepKeepsClients(cfg: Config, s: Server, e: Event)
    requires Anchored(s) && Enabled(cfg, s, e) && ClientsKept(s)
    ensures ClientsKept(Step(cfg, s, e))
  {
  }

  /** Nothing but its own client loop moves a connection, and replies leave the gate alone. */
  lemma GateKeptByReply(k: Connection, i: nat, replies: seq<Reply>)
    requires GateKept(k) && i < |k.history|
    ensures GateKept(k.(history := k.history[i := k.history[i].(replies := replies)]))
  {
    var history := k.history[i := k.history[i].(replies := replies)];
    forall j | 0 <= j < |history|
      ensures Act(history[j]) == Act(k.history[j]) && history[j].gate == k.history[j].gate
    {
    }
    forall n: nat | n <= |history|
      ensures Opened(history, n) <==> Opened(k.history, n)
    {
      SameOpenings(history, k.history, n);
    }
  }

  lemma SameOpenings(a: seq<Read>, b: seq<Read>, n: nat)
    requires n <= |a| && n <= |b|
    requires forall j :: 0 <= j < n ==> Act(a[j]) == Act(b[j])
    ensures Opened(a, n) <==> Opened(b, n)
  {
    if Opened(a, n) {
      var j :| 0 <= j < n && j < |a| && Opens(a[j]);
      assert Opens(b[j]);
    }
    if Opened(b, n) {
      var j :| 0 <= j < n && j < |b| && Opens(b[j]);
      assert Opens(a[j]);
    }
  }

  lemma GateKeptByRead(k: Connection, r: Read, phase: Phase)
    requires GateKept(k) && k.phase.Reading? && r.gate == k.handshakeDone
    requires match Act(r)
             case Skip => phase.Reading?
             case Fail => phase.Closed?
             case Answer(_, after) => phase == Writing(after)
             case Launch(_, _) => phase.Reading?
    ensures GateKept(k.(history := k.history + [r], phase := phase))
  {
    var history := k.history + [r];
    forall n: nat | n <= |k.history|
      ensures Opened(history, n) <==> Opened(k.history, n)
    {
      SameOpenings(history, k.history, n);
    }
    OneMoreOpening(k.history, r);
  }

  lemma OneMoreOpening(history: seq<Read>, r: Read)
    ensures Opened(history + [r], |history| + 1) <==> Opened(history, |history|) || Opens(r)
  {
    var all := history + [r];
    if Opens(r) {
      assert Opens(all[|history|]);
    }
    if Opened(history, |history|) {
      var j :| 0 <= j < |history| && Opens(history[j]);
      assert Opens(all[j]);
    }
  }

  lemma GateKeptByWrite(k: Connection)
    requires GateKept(k) && k.phase.Writing? && k.phase.after != HangUp
    ensures GateKept(k.(phase := Reading, handshakeDone := k.handshakeDone || k.phase.after == Accept))
  {
    var n := |k.history| - 1;
    assert k.history == k.history[..n] + [k.history[n]];
    OneMoreOpening(k.history[..n], k.history[n]);
    SameOpenings(k.history[..n], k.history, n);
  }

  lemma StepKeepsGate(cfg: Config, s: Server, e: Event)
    requires Anchored(s) && Enabled(cfg, s, e) && Gated(s)
    ensures Gated(Step(cfg, s, e))
  {
    match e
    case Connects =>
    case Reads(c, f) => ReadKeepsGate(cfg, s, c, f);
    case LoopWrote(c, failed) => GateKeptAfterWrite(s, c, failed);
    case Ends(c) =>
    case Starts(t) =>
    case Handled(t, o) => HandledKeepsGate(cfg, s, t, o);
    case TaskWrote(t, failed) => TaskWroteKeepsGate(s, t, failed);
  }

  lemma ReadKeepsGate(cfg: Config, s: Server, c: nat, f: Frame)
    requires c < |s.connections| && s.connections[c].phase.Reading? && Gated(s)
    ensures Gated(OnRead(cfg, s, c, f))
  {
    var k := s.connections[c];
    var s' := OnRead(cfg, s, c, f);
    var k' := s'.connections[c];
    var r := k'.history[|k.history|];
    assert k' == k.(history := k.history + [r], phase := k'.phase);
    GateKeptByRead(k, r, k'.phase);
  }

  lemma GateKeptAfterWrite(s: Server, c: nat, failed: bool)
    requires c < |s.connections| && s.connections[c].phase.Writing? && Gated(s)
    ensures Gated(OnLoopWrote(s, c, failed))
  {
    var k := s.connections[c];
    if !failed && k.phase.after != HangUp {
      GateKeptByWrite(k);
    }
  }

  lemma ReplyKeepsGate(s: Server, c: nat, i: nat, reply: Reply)
    requires c < |s.connections| && i < |s.connections[c].history| && Gated(s)
    ensures Gated(AddReply(s, c, i, reply))
  {
    GateKeptByReply(s.connections[c], i, s.connections[c].history[i].replies + [reply]);
  }

  lemma HandledKeepsGate(cfg: Config, s: Server, t: nat, o: Outcome)
    requires Anchored(s) && t < |s.tasks| && Gated(s)
    ensures Gated(OnHandled(cfg, s, t, o))
  {
    var task := s.tasks[t];
    ReplyKeepsGate(s, task.conn, task.frame,
                   if o.TimesOut? then Reply(task.id, task.kind, false, RequestTimeout) else Dispatched(cfg, task, o));
  }

  lemma TaskWroteKeepsGate(s: Server, t: nat, failed: bool)
    requires Anchored(s) && t < |s.tasks| && Gated(s)
    ensures Gated(OnTaskWrote(s, t, failed))
  {
    var task := s.tasks[t];
    ReplyKeepsGate(s, task.conn, task.frame, Reply(task.id, task.kind, false, InternalError));
  }

  // ---------- the end of a loop ----------

  /** Writing a reply closes the connection exactly if the write failed or the reply hangs up; otherwise the loop reads
      on, and the gate opens exactly for an accepted handshake. */
  lemma WriteLaw(s: Server, c: nat, failed: bool)
    requires c < |s.connections| && s.connections[c].phase.Writing?
    ensures var k, k' := s.connections[c], OnLoopWrote(s, c, failed).connections[c];
            && (k'.phase.Closed? <==> failed || k.phase.after == HangUp)
            && (k'.phase.Reading? <==> !failed && k.phase.after in {Continue, Accept})
            && (k'.handshakeDone <==> k.handshakeDone || (!failed && k.phase.after == Accept))
            && k'.history == k.history
  {
  }

  lemma EndsWellAfterWrite(s: Server, c: nat, failed: bool)
    requires c < |s.connections| && s.connections[c].phase.Writing? && Gated(s) && Ended(s)
    ensures Ended(OnLoopWrote(s, c, failed))
  {
    WriteLaw(s, c, failed);
    assert GateKept(s.connections[c]) && EndsWell(s.connections[c]);
  }

  lemma EndsWellAfterRead(cfg: Config, s: Server, c: nat, f: Frame)
    requires c < |s.connections| && s.connections[c].phase.Reading? && Ended(s)
    ensures Ended(OnRead(cfg, s, c, f))
  {
    var k, s' := s.connections[c], OnRead(cfg, s, c, f);
    assert EndsWell(k);
    var k' := s'.connections[c];
    assert Act(k'.history[|k.history|]) == Handle(k.handshakeDone, s.activeRequests >= cfg.maxConcurrent, f);
    assert forall i :: 0 <= i < |k.history| ==> k'.history[i] == k.history[i];
  }

  lemma EndsWellAfterReply(s: Server, c: nat, i: nat, reply: Reply)
    requires c < |s.connections| && i < |s.connections[c].history| && Ended(s)
    ensures Ended(AddReply(s, c, i, reply))
  {
    var k, k' := s.connections[c], AddReply(s, c, i, reply).connections[c];
    assert EndsWell(k);
    assert forall j :: 0 <= j < |k.history| ==> Act(k'.history[j]) == Act(k.history[j]);
  }

  lemma StepKeepsEnds(cfg: Config, s: Server, e: Event)
    requires Anchored(s) && Enabled(cfg, s, e) && Gated(s) && Ended(s)
    ensures Ended(Step(cfg, s, e))
  {
    match e
    case Connects =>
    case Reads(c, f) => EndsWellAfterRead(cfg, s, c, f);
    case LoopWrote(c, failed) => EndsWellAfterWrite(s, c, failed);
    case Ends(c) =>
      assert EndsWell(s.connections[c]);
    case Starts(t) =>
    case Handled(t, o) =>
      var task := s.tasks[t];
      var reply := if o.TimesOut? then Reply(task.id, task.kind, false, RequestTimeout) else Dispatched(cfg, task, o);
      EndsWellAfterReply(s, task.conn, task.frame, reply);
    case TaskWrote(t, failed) =>
      var task := s.tasks[t];
      EndsWellAfterReply(s, task.conn, task.frame, Reply(task.id, task.kind, false, InternalError));
  }

  // ---------- replies ----------

  /** A task adds a reply to its own frame and moves on to a phase that has written one more. */
  lemma TaskReplies(cfg: Config, s: Server, t: nat, reply: Reply, task': RequestTask)
    requires Anchored(s) && RepliesAccounted(cfg, s) && t < |s.tasks|
    requires task' == s.tasks[t].(phase := task'.phase, outcome := task'.outcome)
    requires Written(task'.phase) == Written(s.tasks[t].phase) + 1
    requires Truthful(cfg, s.connections[s.tasks[t].conn].history[s.tasks[t].frame].replies + [reply], task')
    ensures var s' := AddReply(s, task'.conn, task'.frame, reply).(tasks := s.tasks[t := task']);
            Anchored(s') && RepliesAccounted(cfg, s')
  {
    var s' := AddReply(s, task'.conn, task'.frame, reply).(tasks := s.tasks[t := task']);
    forall c, i | 0 <= c < |s'.connections| && 0 <= i < |s'.connections[c].history|
      ensures Accounted(cfg, s', c, i, s'.connections[c].history[i])
    {
      assert Accounted(cfg, s, c, i, s.connections[c].history[i]);
    }
  }

  /** What a task has told so far stands on its own frame. */
  lemma OwnReplies(cfg: Config, s: Server, t: nat)
    requires Anchored(s) && RepliesAccounted(cfg, s) && t < |s.tasks|
    ensures var task := s.tasks[t];
            var replies := s.connections[task.conn].history[task.frame].replies;
            |replies| == Written(task.phase) && Truthful(cfg, replies, task)
  {
    var task := s.tasks[t];
    assert Accounted(cfg, s, task.conn, task.frame, s.connections[task.conn].history[task.frame]);
  }

  lemma PhaseChange(cfg: Config, s: Server, t: nat, phase: TaskPhase)
    requires Anchored(s) && RepliesAccounted(cfg, s) && t < |s.tasks| && Written(phase) == Written(s.tasks[t].phase)
    ensures Anchored(SetPhase(s, t, phase)) && RepliesAccounted(cfg, SetPhase(s, t, phase))
  {
    var s' := SetPhase(s, t, phase);
    forall c, i | 0 <= c < |s'.connections| && 0 <= i < |s'.connections[c].history|
      ensures Accounted(cfg, s', c, i, s'.connections[c].history[i])
    {
      assert Accounted(cfg, s, c, i, s.connections[c].history[i]);
    }
  }

  /** A frame is added to one history, with the task it launched, if any. */
  ghost predicate Appends(s: Server, s': Server, c: nat, r: Read) {
    && c < |s.connections| && |s'.connections| == |s.connections|
    && s'.connections[c].history == s.connections[c].history + [r]
    && (forall d :: 0 <= d < |s.connections| && d != c ==> s'.connections[d] == s.connections[d])
    && s'.tasks == s.tasks + (if Act(r).Launch?
                              then [RequestTask(c, |s.connections[c].history|, Act(r).id, Act(r).kind, Created, None)]
                              else [])
    && r.task == (if Act(r).Launch? then Some(|s.tasks|) else None)
    && r.replies == (if Act(r).Answer? then [Act(r).reply] else [])
  }

  lemma ReadAppends(cfg: Config, s: Server, c: nat, f: Frame) returns (r: Read)
    requires c < |s.connections|
    ensures Appends(s, OnRead(cfg, s, c, f), c, r)
  {
    var k := s.connections[c];
    var busy := s.activeRequests >= cfg.maxConcurrent;
    r := OnRead(cfg, s, c, f).connections[c].history[|k.history|];
    assert Act(r) == Handle(k.handshakeDone, busy, f);
  }

  lemma AppendKeepsAnchors(s: Server, s': Server, c: nat, r: Read)
    requires Appends(s, s', c, r) && Anchored(s)
    ensures Anchored(s')
  {
    forall t | 0 <= t < |s'.tasks|
      ensures var task := s'.tasks[t];
              && task.conn < |s'.connections| && task.frame < |s'.connections[task.conn].history|
              && var q := s'.connections[task.conn].history[task.frame];
                 q.task == Some(t) && Act(q) == Launch(task.id, task.kind)
    {
      if t < |s.tasks| {
        assert s'.tasks[t] == s.tasks[t];
      }
    }
  }

  lemma AppendAccounts(cfg: Config, s: Server, s': Server, c: nat, r: Read)
    requires Appends(s, s', c, r) && RepliesAccounted(cfg, s)
    ensures RepliesAccounted(cfg, s')
  {
    forall d, i | 0 <= d < |s'.connections| && 0 <= i < |s'.connections[d].history|
      ensures Accounted(cfg, s', d, i, s'.connections[d].history[i])
    {
      if i < |s.connections[d].history| {
        assert Accounted(cfg, s, d, i, s.connections[d].history[i]);
      }
    }
  }

  lemma ReadKeepsReplies(cfg: Config, s: Server, c: nat, f: Frame)
    requires Anchored(s) && RepliesAccounted(cfg, s) && c < |s.connections|
    ensures Anchored(OnRead(cfg, s, c, f)) && RepliesAccounted(cfg, OnRead(cfg, s, c, f))
  {
    var r := ReadAppends(cfg, s, c, f);
    AppendKeepsAnchors(s, OnRead(cfg, s, c, f), c, r);
    AppendAccounts(cfg, s, OnRead(cfg, s, c, f), c, r);
  }

  /** Changes of phase in client loops, and new connections, leave tasks and histories alone. */
  lemma SameHistories(cfg: Config, s: Server, s': Server)
    requires Anchored(s) && RepliesAccounted(cfg, s) && s'.tasks == s.tasks && |s.connections| <= |s'.connections|
    requires forall c :: 0 <= c < |s.connections| ==> s'.connections[c].history == s.connections[c].history
    requires forall c :: |s.connections| <= c < |s'.connections| ==> s'.connections[c].history == []
    ensures Anchored(s') && RepliesAccounted(cfg, s')
  {
    forall c, i | 0 <= c < |s'.connections| && 0 <= i < |s'.connections[c].history|
      ensures Accounted(cfg, s', c, i, s'.connections[c].history[i])
    {
      assert Accounted(cfg, s, c, i, s.connections[c].history[i]);
    }
  }

  lemma HandledKeepsReplies(cfg: Config, s: Server, t: nat, o: Outcome)
    requires Anchored(s) && RepliesAccounted(cfg, s) && t < |s.tasks| && s.tasks[t].phase.Running?
    requires o.TimesOut? ==> s.tasks[t].kind in cfg.methods
    ensures Anchored(OnHandled(cfg, s, t, o)) && RepliesAccounted(cfg, OnHandled(cfg, s, t, o))
  {
    var task := s.tasks[t];
    OwnReplies(cfg, s, t);
    if o.TimesOut? {
      TaskReplies(cfg, s, t, Reply(task.id, task.kind, false, RequestTimeout),
                  task.(phase := TimingOut, outcome := Some(o)));
    } else {
      TaskReplies(cfg, s, t, Dispatched(cfg, task, o), task.(phase := Responding, outcome := Some(o)));
    }
  }

  lemma TaskWroteKeepsReplies(cfg: Config, s: Server, t: nat, failed: bool)
    requires Anchored(s) && RepliesAccounted(cfg, s) && t < |s.tasks|
    requires Written(s.tasks[t].phase) > 0 && !s.tasks[t].phase.Finished?
    ensures Anchored(OnTaskWrote(s, t, failed)) && RepliesAccounted(cfg, OnTaskWrote(s, t, failed))
  {
    var task := s.tasks[t];
    if task.phase.Responding? && failed {
      OwnReplies(cfg, s, t);
      TaskReplies(cfg, s, t, Reply(task.id, task.kind, false, InternalError), task.(phase := ReportingFailure));
    } else {
      var resent := task.phase.ReportingFailure?;
      PhaseChange(cfg, s, t, Finished(resent));
      SameHistories(cfg, SetPhase(s, t, Finished(resent)), Finish(s, t, resent));
    }
  }

  lemma StartKeepsReplies(cfg: Config, s: Server, t: nat, active: int, total: int)
    requires Anchored(s) && RepliesAccounted(cfg, s) && t < |s.tasks| && s.tasks[t].phase.Created?
    ensures var s' := SetPhase(s, t, Running).(activeRequests := active, totalHandled := total);
            Anchored(s') && RepliesAccounted(cfg, s')
  {
    PhaseChange(cfg, s, t, Running);
    var running := SetPhase(s, t, Running);
    SameHistories(cfg, running, running.(activeRequests := active, totalHandled := total));
  }

  lemma StepKeepsReplies(cfg: Config, s: Server, e: Event)
    requires Anchored(s) && RepliesAccounted(cfg, s) && Enabled(cfg, s, e)
    ensures Anchored(Step(cfg, s, e)) && RepliesAccounted(cfg, Step(cfg, s, e))
  {
    match e
    case Reads(c, f) => ReadKeepsReplies(cfg, s, c, f);
    case Starts(t) => StartKeepsReplies(cfg, s, t, s.activeRequests + 1, s.totalHandled + 1);
    case Handled(t, o) => HandledKeepsReplies(cfg, s, t, o);
    case TaskWrote(t, failed) => TaskWroteKeepsReplies(cfg, s, t, failed);
    case _ => SameHistories(cfg, s, Step(cfg, s, e));
  }

  // ---------- whole runs ----------

  ghost predicate Sound(cfg: Config, s: Server) {
    Anchored(s) && RepliesAccounted(cfg, s) && Gated(s) && Ended(s) && Counted(s) && ClientsKept(s)
  }

  lemma StepKeepsSound(cfg: Config, s: Server, e: Event)
    requires Sound(cfg, s) && Enabled(cfg, s, e)
    ensures Sound(cfg, Step(cfg, s, e))
  {
    StepKeepsReplies(cfg, s, e);
    StepKeepsGate(cfg, s, e);
    StepKeepsEnds(cfg, s, e);
    StepKeepsCounts(cfg, s, e);
    StepKeepsClients(cfg, s, e);
  }

  lemma IdleIsSound(cfg: Config)
    ensures Sound(cfg, IDLE)
  {
  }

  /** The states of a run: from an idle server, one event after the other, in any order that is possible. */
  ghost predicate IsRun(cfg: Config, states: seq<Server>) {
    states != [] && states[0] == IDLE &&
    forall i :: 0 <= i < |states| - 1 ==> Follows(cfg, states[i], states[i + 1])
  }

  ghost predicate Follows(cfg: Config, s: Server, s': Server) {
    exists e :: Enabled(cfg, s, e) && s' == Step(cfg, s, e)
  }

  lemma {:induction false} RunsAreSound(cfg: Config, states: seq<Server>, i: nat)
    requires IsRun(cfg, states) && i < |states|
    ensures Sound(cfg, states[i])
  {
    if i == 0 {
      IdleIsSound(cfg);
    } else {
      RunsAreSound(cfg, states, i - 1);
      assert Follows(cfg, states[i - 1], states[i]);
      FollowsKeepsSound(cfg, states[i - 1], states[i]);
    }
  }

  lemma FollowsKeepsSound(cfg: Config, s: Server, s': Server)
    requires Sound(cfg, s) && Follows(cfg, s, s')
    ensures Sound(cfg, s')
  {
    var e :| Enabled(cfg, s, e) && s' == Step(cfg, s, e);
    StepKeepsSound(cfg, s, e);
  }

  // ---------- main results ----------

  /** No request task exists, let alone starts a handler, unless an earlier frame on its connection was
      a handshake of version 1.0, and that handshake was answered with success. */
  lemma HandlersFollowHandshake(cfg: Config, run: seq<Server>, s: Server, t: nat)
    requires IsRun(cfg, run) && s == run[|run| - 1] && t < |s.tasks|
    ensures exists j :: 0 <= j < s.tasks[t].frame && AcceptedHandshake(s, s.tasks[t].conn, j)
  {
    RunsAreSound(cfg, run, |run| - 1);
    TaskBehindGate(cfg, s, t);
  }

  ghost predicate AcceptedHandshake(s: Server, c: nat, j: nat) {
    c < |s.connections| && j < |s.connections[c].history| &&
    var r := s.connections[c].history[j];
    OpeningHandshake(r.frame) && |r.replies| == 1 && r.replies[0].success && r.replies[0].kind == HANDSHAKE
  }

  lemma TaskBehindGate(cfg: Config, s: Server, t: nat)
    requires Anchored(s) && Gated(s) && RepliesAccounted(cfg, s) && t < |s.tasks|
    ensures exists j :: 0 <= j < s.tasks[t].frame && AcceptedHandshake(s, s.tasks[t].conn, j)
  {
    var task := s.tasks[t];
    var k := s.connections[task.conn];
    assert GateKept(k);
    var r := k.history[task.frame];
    HandleLaw(r.gate, r.busy, r.frame);
    var j :| 0 <= j < task.frame && Opens(k.history[j]);
    OpeningIsAnswered(cfg, s, task.conn, j, k.history[j]);
  }

  lemma OpeningIsAnswered(cfg: Config, s: Server, c: nat, j: nat, r: Read)
    requires c < |s.connections| && j < |s.connections[c].history| && r == s.connections[c].history[j]
    requires RepliesAccounted(cfg, s) && Opens(r)
    ensures AcceptedHandshake(s, c, j)
  {
    assert Accounted(cfg, s, c, j, r);
    HandleLaw(r.gate, r.busy, r.frame);
  }

  /** In every run, nothing is read on a connection after a fatal frame or a refused handshake. */
  lemma NothingAfterRefusal(cfg: Config, run: seq<Server>, s: Server, c: nat, i: nat)
    requires IsRun(cfg, run) && s == run[|run| - 1] && c < |s.connections| && i < |s.connections[c].history|
    requires var r := s.connections[c].history[i];
             || (r.replies != [] && r.replies[0].code in {HandshakeRequired, VersionMismatch})
             || (r.replies == [] && r.task.None? && !r.frame.Blank?)
    ensures i == |s.connections[c].history| - 1 && !s.connections[c].phase.Reading?
  {
    RunsAreSound(cfg, run, |run| - 1);
    var r := s.connections[c].history[i];
    RefusedFrameEnds(cfg, s, c, i, r);
    assert EndsWell(s.connections[c]);
  }

  lemma RefusedFrameEnds(cfg: Config, s: Server, c: nat, i: nat, r: Read)
    requires Accounted(cfg, s, c, i, r)
    requires || (r.replies != [] && r.replies[0].code in {HandshakeRequired, VersionMismatch})
             || (r.replies == [] && r.task.None? && !r.frame.Blank?)
    ensures EndsLoop(r)
  {
    HandleLaw(r.gate, r.busy, r.frame);
    if Act(r).Answer? {
      RefusalLaw(r.gate, r.busy, r.frame);
    }
  }

  /** Dispatching ends with one more reply to the task's own frame, and that reply tells how it ended. */
  lemma DispatchTells(cfg: Config, s: Server, t: nat, o: Outcome)
    requires Anchored(s) && Enabled(cfg, s, Handled(t, o))
    ensures var task := s.tasks[t];
            var before := s.connections[task.conn].history[task.frame].replies;
            var now := Step(cfg, s, Handled(t, o)).connections[task.conn].history[task.frame].replies;
            |now| == |before| + 1 && now[..|before|] == before && Tells(cfg, task.kind, o, now[|before|])
  {
  }

  /** Writing a response ends its task, unless the write fails and the response was not the timeout: then the client is
      told of an internal error once, and that ends it, written or not. */
  lemma ResponseLaw(cfg: Config, s: Server, t: nat, o: Outcome, failed: bool, again: bool)
    requires Anchored(s) && Enabled(cfg, s, Handled(t, o))
    ensures var task := s.tasks[t];
            var told := Step(cfg, s, Handled(t, o));
            var replies := told.connections[task.conn].history[task.frame].replies;
            && Enabled(cfg, told, TaskWrote(t, failed)) && told.activeRequests == s.activeRequests
            && var done := Step(cfg, told, TaskWrote(t, failed));
            && var now := done.connections[task.conn].history[task.frame].replies;
            && if failed && !o.TimesOut? then
                 && now == replies + [Reply(task.id, task.kind, false, InternalError)]
                 && Enabled(cfg, done, TaskWrote(t, again)) && done.activeRequests == s.activeRequests
                 && var ended := Step(cfg, done, TaskWrote(t, again));
                 && ended.tasks[t].phase.Finished? && ended.connections == done.connections
                 && ended.activeRequests == s.activeRequests - 1
               else
                 && now == replies && done.tasks[t].phase.Finished? && done.activeRequests == s.activeRequests - 1
  {
  }

  /** In every run, what a launched frame was told first is how its dispatch ended, and success is told only to
      a frame whose registered handler returned, or to an opening handshake. */
  lemma SuccessIsEarned(cfg: Config, run: seq<Server>, s: Server, c: nat, i: nat, n: nat)
    requires IsRun(cfg, run) && s == run[|run| - 1]
    requires c < |s.connections| && i < |s.connections[c].history| && n < |s.connections[c].history[i].replies|
    ensures var r := s.connections[c].history[i];
            && (r.task.Some? ==>
                  && r.task.value < |s.tasks| && s.tasks[r.task.value].outcome.Some?
                  && Tells(cfg, s.tasks[r.task.value].kind, s.tasks[r.task.value].outcome.value, r.replies[0]))
            && (r.replies[n].success ==>
                  if r.task.Some? then
                    var task := s.tasks[r.task.value];
                    n == 0 && task.outcome == Some(Returns) && task.kind in cfg.methods
                  else OpeningHandshake(r.frame))
  {
    RunsAreSound(cfg, run, |run| - 1);
    EarnedBy(cfg, s, c, i, n, s.connections[c].history[i]);
  }

  lemma EarnedBy(cfg: Config, s: Server, c: nat, i: nat, n: nat, r: Read)
    requires Accounted(cfg, s, c, i, r) && n < |r.replies|
    ensures r.task.Some? ==>
              && r.task.value < |s.tasks| && s.tasks[r.task.value].outcome.Some?
              && Tells(cfg, s.tasks[r.task.value].kind, s.tasks[r.task.value].outcome.value, r.replies[0])
    ensures r.replies[n].success ==>
              if r.task.Some? then
                n == 0 && s.tasks[r.task.value].outcome == Some(Returns) && s.tasks[r.task.value].kind in cfg.methods
              else OpeningHandshake(r.frame)
  {
    HandleLaw(r.gate, r.busy, r.frame);
    if Act(r).Answer? {
      RefusalLaw(r.gate, r.busy, r.frame);
    }
  }

  ghost predicate AllDone(s: Server) {
    forall t :: 0 <= t < |s.tasks| ==> s.tasks[t].phase.Finished?
  }

  /** The frame launched a task whose response could not be written. */
  ghost predicate Resent(s: Server, r: Read) {
    r.task.Some? && r.task.value < |s.tasks| && s.tasks[r.task.value].phase == Finished(true)
  }

  /** Once the tasks have finished, a frame has no reply if it is silent, two if its response could not be
      written, and otherwise exactly one. */
  lemma OneReplyPerFrame(cfg: Config, run: seq<Server>, s: Server, c: nat, i: nat)
    requires IsRun(cfg, run) && s == run[|run| - 1] && AllDone(s)
    requires c < |s.connections| && i < |s.connections[c].history|
    ensures var r := s.connections[c].history[i];
            |r.replies| ==
              if Silent(Opened(s.connections[c].history, i), r.frame) then 0 else if Resent(s, r) then 2 else 1
  {
    RunsAreSound(cfg, run, |run| - 1);
    assert GateKept(s.connections[c]);
    FinalReplies(cfg, s, c, i, s.connections[c].history[i]);
  }

  lemma FinalReplies(cfg: Config, s: Server, c: nat, i: nat, r: Read)
    requires AllDone(s) && Accounted(cfg, s, c, i, r)
    ensures |r.replies| == if Silent(r.gate, r.frame) then 0 else if Resent(s, r) then 2 else 1
  {
    HandleLaw(r.gate, r.busy, r.frame);
  }

  /** A frame ends its connection exactly if it is silent and not blank, and then it has been answered by nobody. */
  lemma SilenceHangsUp(cfg: Config, s: Server, c: nat, f: Frame)
    requires Enabled(cfg, s, Reads(c, f))
    ensures var k := Step(cfg, s, Reads(c, f)).connections[c];
            && (k.phase.Closed? <==> Silent(s.connections[c].handshakeDone, f) && !f.Blank?)
            && (k.phase.Closed? ==> k.history[|k.history| - 1].replies == [])
  {
    HandleLaw(s.connections[c].handshakeDone, s.activeRequests >= cfg.maxConcurrent, f);
  }

  /** A handshake of the right version whose id is no text. */
  const NUMBERED_HANDSHAKE := Message(NotText, Text(HANDSHAKE), Text(VERSION), true)

  /** It closes a fresh connection, and is never answered. */
  lemma NumberedHandshakeIsUnanswered(cfg: Config)
    ensures var s1 := Step(cfg, IDLE, Connects);
            var s2 := Step(cfg, s1, Reads(0, NUMBERED_HANDSHAKE));
            && IsRun(cfg, [IDLE, s1, s2])
            && s2.connections[0].phase.Closed? && s2.connections[0].history[0].replies == []
  {
    var s1 := Step(cfg, IDLE, Connects);
    assert Enabled(cfg, IDLE, Connects);
    assert Enabled(cfg, s1, Reads(0, NUMBERED_HANDSHAKE));
    SilenceHangsUp(cfg, s1, 0, NUMBERED_HANDSHAKE);
    var run := [IDLE, s1, Step(cfg, s1, Reads(0, NUMBERED_HANDSHAKE))];
    forall i | 0 <= i < |run| - 1
      ensures Follows(cfg, run[i], run[i + 1])
    {
    }
  }

  /** At any time a frame has at most those replies, each under the frame's own id. */
  lemma RepliesSoFar(cfg: Config, run: seq<Server>, s: Server, c: nat, i: nat)
    requires IsRun(cfg, run) && s == run[|run| - 1]
    requires c < |s.connections| && i < |s.connections[c].history|
    ensures var r := s.connections[c].history[i];
            && |r.replies| <= (if r.task.Some? then 2 else 1)
            && (r.frame.Message? && r.frame.id.Text? ==>
                  forall n :: 0 <= n < |r.replies| ==> r.replies[n].id == r.frame.id.value)
  {
    RunsAreSound(cfg, run, |run| - 1);
    RepliesOf(cfg, s, c, i, s.connections[c].history[i]);
  }

  lemma RepliesOf(cfg: Config, s: Server, c: nat, i: nat, r: Read)
    requires Accounted(cfg, s, c, i, r)
    ensures |r.replies| <= (if r.task.Some? then 2 else 1)
    ensures r.frame.Message? && r.frame.id.Text? ==>
              forall n :: 0 <= n < |r.replies| ==> r.replies[n].id == r.frame.id.value
  {
    HandleLaw(r.gate, r.busy, r.frame);
  }

  /** The counters: active requests are those started and not finished, so never negative, and none at rest. */
  lemma CountersAreExact(cfg: Config, run: seq<Server>, s: Server)
    requires IsRun(cfg, run) && s == run[|run| - 1]
    ensures s.activeRequests == Count(s.tasks, Started()) - Count(s.tasks, Done()) >= 0
    ensures s.totalHandled == Count(s.tasks, Started())
    ensures AllDone(s) ==> s.activeRequests == 0
  {
    RunsAreSound(cfg, run, |run| - 1);
    CountNeverLess(s.tasks);
    if AllDone(s) {
      AllCounted(s.tasks);
    }
  }

  lemma {:induction false} AllCounted(tasks: seq<RequestTask>)
    requires forall t :: 0 <= t < |tasks| ==> tasks[t].phase.Finished?
    ensures Count(tasks, Started()) == Count(tasks, Done())
  {
    if tasks != [] {
      AllCounted(tasks[1..]);
    }
  }

  // ---------- the server object ----------

  class IpcServer {
    const config: Config
    var connections: seq<Connection>
    var tasks: seq<RequestTask>
    var activeRequests: int
    var totalRequestsHandled: int
    var activeClients: set<nat>

    ghost function AsServer(): Server
      reads this
    {
      Server(connections, tasks, activeRequests, totalRequestsHandled, activeClients)
    }

    constructor (config: Config)
      ensures this.config == config && AsServer() == IDLE
    {
      this.config := config;
      connections, tasks, activeRequests, totalRequestsHandled, activeClients := [], [], 0, 0, {};
    }

    method OnClientConnected() returns (c: nat)
      modifies this
      ensures c == |old(connections)|
      ensures AsServer() == old(AsServer()).(connections := old(connections) + [Connection(Reading, false, [])])
    {
      c := |connections|;
      connections := connections + [Connection(Reading, false, [])];
    }

    /** Records a frame of connection `c` with what it found and what was written or launched for it. */
    method Record(c: nat, f: Frame, replies: seq<Reply>, task: Option<nat>, phase: Phase)
      requires c < |connections|
      modifies this`connections
      ensures var k := old(connections)[c];
              var r := Read(f, k.handshakeDone, activeRequests >= config.maxConcurrent, replies, task);
              connections == old(connections)[c := k.(history := k.history + [r], phase := phase)]
    {
      var k := connections[c];
      var r := Read(f, k.handshakeDone, activeRequests >= config.maxConcurrent, replies, task);
      connections := connections[c := k.(history := k.history + [r], phase := phase)];
    }

    /** The end of a client loop. */
    method Hangup(c: nat)
      requires c < |connections|
      modifies this`connections, this`activeClients
      ensures AsServer() == CloseConnection(old(AsServer()), c)
    {
      connections := connections[c := connections[c].(phase := Closed)];
      activeClients := activeClients - {c};
    }

    /** One turn of the client loop, from reading a frame to beginning its reply or launching its task. */
    method ReadFrame(c: nat, f: Frame)
      requires Enabled(config, AsServer(), Reads(c, f))
      modifies this
      ensures AsServer() == OnRead(config, old(AsServer()), c, f)
    {
      var done := connections[c].handshakeDone;
      if f.Blank? {
        Record(c, f, [], None, Reading);
      } else if f.Unreadable? {
        Record(c, f, [], None, Reading);
        Hangup(c);
      } else if f.NotAnObject? {
        Record(c, f, [Reply("unknown", "error.protocol", false, InvalidJson)], None, Writing(Continue));
      } else if !done && f.id.NotText? {
        Record(c, f, [], None, Reading);
        Hangup(c);
      } else if !done {
        if f.kind != Text(HANDSHAKE) {
          var id := if f.id.Text? then f.id.value else "unknown";
          Record(c, f, [Reply(id, "error.handshake_required", false, HandshakeRequired)], None, Writing(HangUp));
        } else {
          var id := if f.id.Text? then f.id.value else "handshake_init";
          if f.version != Text(VERSION) {
            Record(c, f, [Reply(id, HANDSHAKE, false, VersionMismatch)], None, Writing(HangUp));
          } else {
            Record(c, f, [Reply(id, HANDSHAKE, true, NoError)], None, Writing(Accept));
          }
        }
      } else {
        HandleRequest(c, f);
      }
    }

    /** A frame past the gate: refused for its shape or the load, or launched. */
    method HandleRequest(c: nat, f: Frame)
      requires Enabled(config, AsServer(), Reads(c, f)) && connections[c].handshakeDone && f.Message?
      modifies this
      ensures AsServer() == OnRead(config, old(AsServer()), c, f)
    {
      if !ValidRequest(f) {
        if f.id.NotText? || f.kind.NotText? {
          Record(c, f, [], None, Reading);
          Hangup(c);
        } else {
          var id := if f.id.Text? then f.id.value else "unknown";
          var kind := if f.kind.Text? then f.kind.value else "error.schema";
          Record(c, f, [Reply(id, kind, false, InvalidSchema)], None, Writing(Continue));
        }
      } else if activeRequests >= config.maxConcurrent {
        Record(c, f, [Reply(f.id.value, f.kind.value, false, ServerBusy)], None, Writing(Continue));
      } else {
        var task := RequestTask(c, |connections[c].history|, f.id.value, f.kind.value, Created, None);
        Record(c, f, [], Some(|tasks|), Reading);
        tasks := tasks + [task];
      }
    }

    /** The loop's own reply has been written, or failed to be. */
    method OnReplyWritten(c: nat, failed: bool)
      requires Enabled(config, AsServer(), LoopWrote(c, failed))
      modifies this
      ensures AsServer() == OnLoopWrote(old(AsServer()), c, failed)
    {
      var k := connections[c];
      if failed || k.phase.after == HangUp {
        Hangup(c);
      } else if k.phase.after == Accept {
        connections := connections[c := k.(phase := Reading, handshakeDone := true)];
        activeClients := activeClients + {c};
      } else {
        connections := connections[c := k.(phase := Reading)];
      }
    }

    method MoveTask(t: nat, phase: TaskPhase)
      requires t < |tasks|
      modifies this`tasks
      ensures AsServer() == SetPhase(old(AsServer()), t, phase)
    {
      tasks := tasks[t := tasks[t].(phase := phase)];
    }

    method RecordOutcome(t: nat, phase: TaskPhase, o: Outcome)
      requires t < |tasks|
      modifies this`tasks
      ensures AsServer() == SetOutcome(old(AsServer()), t, phase, o)
    {
      tasks := tasks[t := tasks[t].(phase := phase, outcome := Some(o))];
    }

    method WriteReply(c: nat, i: nat, reply: Reply)
      requires c < |connections| && i < |connections[c].history|
      modifies this`connections
      ensures AsServer() == AddReply(old(AsServer()), c, i, reply)
    {
      var k := connections[c];
      var r := k.history[i];
      connections := connections[c := k.(history := k.history[i := r.(replies := r.replies + [reply])])];
    }

    method StartRequest(t: nat)
      requires Anchored(AsServer()) && Enabled(config, AsServer(), Starts(t))
      modifies this
      ensures AsServer() == Step(config, old(AsServer()), Starts(t))
    {
      activeRequests := activeRequests + 1;
      totalRequestsHandled := totalRequestsHandled + 1;
      MoveTask(t, Running);
    }

    /** The dispatcher returned, or the timeout struck first. */
    method OnDispatched(t: nat, o: Outcome)
      requires Anchored(AsServer()) && Enabled(config, AsServer(), Handled(t, o))
      modifies this
      ensures AsServer() == OnHandled(config, old(AsServer()), t, o)
    {
      var task := tasks[t];
      if o.TimesOut? {
        WriteReply(task.conn, task.frame, Reply(task.id, task.kind, false, RequestTimeout));
        RecordOutcome(t, TimingOut, o);
      } else {
        WriteReply(task.conn, task.frame, Dispatched(config, task, o));
        RecordOutcome(t, Responding, o);
      }
    }

    /** The task's reply has been written, or failed to be: a failed response is reported once, anything else ends
        the task. */
    method OnResponseWritten(t: nat, failed: bool)
      requires Anchored(AsServer()) && Enabled(config, AsServer(), TaskWrote(t, failed))
      modifies this
      ensures AsServer() == OnTaskWrote(old(AsServer()), t, failed)
    {
      var task := tasks[t];
      if task.phase.Responding? && failed {
        WriteReply(task.conn, task.frame, Reply(task.id, task.kind, false, InternalError));
        MoveTask(t, ReportingFailure);
      } else {
        MoveTask(t, Finished(task.phase.ReportingFailure?));
        activeRequests := activeRequests - 1;
      }
    }
  }
}
