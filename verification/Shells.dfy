/** Agent shells (controller.rs): one hub-owned shell per agent, batched input, coalesced resizes,
    generations that fence late completions. */
module Shells {
  import opened Wrappers

  const MAX_TERMINAL_INPUT := 1024 * 1024
  const DEFAULT_SIZE := Size(100, 24)

  type Agent = string
  type Id = string
  type Byte = b: int | 0 <= b < 256

  datatype Size = Size(cols: nat, rows: nat)

  datatype Status = Starting | Attaching | Live | Detached | Exited | Failed

  datatype Shell = Shell(
    id: Option<Id>, cwd: string, wanted: bool, attached: bool, generation: nat, input: seq<Byte>, inputBusy: bool,
    size: Size, resizePending: bool, resizeBusy: bool)

  /** A call on its way to the hub, with what it was issued for. */
  datatype Call = Create(cwd: string, size: Size) | Attach(id: Id) | Input(id: Id, bytes: seq<Byte>)
    | Resize(id: Id, size: Size) | Keepalive(id: Id)

  datatype Job = Job(epoch: nat, agent: Agent, generation: nat, call: Call)

  datatype Answer = Created(id: Option<Id>) | AttachedOk | AttachGone | AttachFailed | InputDone(ok: bool) | Resized
    | LeaseHeld | LeaseLapsed

  /** What happened to one agent's shell, oldest first. */
  datatype Note = Accepted(bytes: seq<Byte>) | Cleared | SentInput(bytes: seq<Byte>, job: nat)
    | SentSize(size: Size, job: nat) | Adopted

  /** `issued` keeps every call ever pushed, by its number. */
  datatype State = State(
    epoch: nat, connected: bool, generation: nat, shells: map<Agent, Shell>, statuses: map<Agent, Status>,
    jobs: map<nat, Job>, nextJob: nat, notes: map<Agent, seq<Note>>, issued: seq<Job>)

  function Init(): State {
    State(0, false, 0, map[], map[], map[], 0, map[], [])
  }

  function Notes(s: State, agent: Agent): seq<Note> {
    if agent in s.notes then s.notes[agent] else []
  }

  function Noted(s: State, agent: Agent, note: Note): State {
    s.(notes := s.notes[agent := Notes(s, agent) + [note]])
  }

  function Put(s: State, agent: Agent, shell: Shell): State {
    s.(shells := s.shells[agent := shell])
  }

  function SetStatus(s: State, agent: Agent, status: Status): State {
    s.(statuses := s.statuses[agent := status])
  }

  function PushJob(s: State, agent: Agent, generation: nat, call: Call): State {
    s.(jobs := s.jobs[s.nextJob := Job(s.epoch, agent, generation, call)], nextJob := s.nextJob + 1,
       issued := s.issued + [Job(s.epoch, agent, generation, call)])
  }

  // ---- the pieces --------------------------------------------------------

  function NewShell(cwd: string, size: Size): Shell {
    Shell(None, cwd, false, false, 0, [], false, size, false, false)
  }

  /** A fresh generation: nothing of the former shell is waited for any more. */
  function CreateShell(s: State, agent: Agent): State {
    var t := s.(generation := s.generation + 1);
    if agent !in s.shells then t
    else
      var sh := s.shells[agent].(generation := t.generation, id := None, attached := false, inputBusy := false,
                                 resizeBusy := false, resizePending := false);
      Noted(PushJob(SetStatus(Put(t, agent, sh), agent, Starting), agent, sh.generation, Create(sh.cwd, sh.size)),
            agent, SentSize(sh.size, s.nextJob))
  }

  function AttachShell(s: State, agent: Agent): State {
    if agent !in s.shells || s.shells[agent].id.None? then s
    else
      var sh := s.shells[agent].(attached := true);
      PushJob(SetStatus(Put(s, agent, sh), agent, Attaching), agent, sh.generation, Attach(sh.id.value))
  }

  /** Everything buffered goes in one call, when none is out. */
  function FlushInput(s: State, agent: Agent): State {
    if agent !in s.shells || s.shells[agent].id.None? then s
    else
      var sh := s.shells[agent];
      if sh.inputBusy || sh.input == [] || !s.connected then s
      else
        Noted(PushJob(Put(s, agent, sh.(inputBusy := true, input := [])), agent, sh.generation,
                      Input(sh.id.value, sh.input)), agent, SentInput(sh.input, s.nextJob))
  }

  /** Only the newest size is sent, one resize at a time. */
  function FlushResize(s: State, agent: Agent): State {
    if agent !in s.shells || s.shells[agent].id.None? then s
    else
      var sh := s.shells[agent];
      if sh.resizeBusy || !sh.resizePending || !s.connected then s
      else
        Noted(PushJob(Put(s, agent, sh.(resizeBusy := true, resizePending := false)), agent, sh.generation,
                      Resize(sh.id.value, sh.size)), agent, SentSize(sh.size, s.nextJob))
  }

  function ShellEnded(s: State, agent: Agent): State {
    var t := if agent !in s.shells then s
             else Noted(Put(s, agent, s.shells[agent].(id := None, attached := false, input := [])), agent, Cleared);
    SetStatus(t, agent, Exited)
  }

  // ---- commands ----------------------------------------------------------

  function AdoptOne(s: State, agent: Agent, id: Id): State {
    if agent in s.shells || id == "" then s
    else
      var t := s.(generation := s.generation + 1);
      var sh := NewShell("", DEFAULT_SIZE).(id := Some(id), generation := t.generation);
      Noted(SetStatus(Put(t, agent, sh), agent, Detached), agent, Adopted)
  }

  function Adopt(s: State, known: seq<(Agent, Id)>): State
    decreases |known|
  {
    if known == [] then s else Adopt(AdoptOne(s, known[0].0, known[0].1), known[1..])
  }

  function Opened(sh: Shell, cwd: string, size: Size): Shell {
    var t := sh.(wanted := true, cwd := if sh.cwd == "" then cwd else sh.cwd);
    if t.size != size then t.(size := size, resizePending := t.id.Some?) else t
  }

  function Open(s: State, agent: Agent, cwd: string, size: Size): State {
    var sh := Opened(if agent in s.shells then s.shells[agent] else NewShell(cwd, size), cwd, size);
    var t := Put(s, agent, sh);
    if !s.connected then SetStatus(t, agent, Failed)
    else
      var u := if sh.id.Some? then (if sh.attached then t else AttachShell(t, agent)) else CreateShell(t, agent);
      FlushResize(u, agent)
  }

  function Hide(s: State, agent: Agent): State {
    if agent !in s.shells then s
    else
      var sh := s.shells[agent];
      var t := Put(s, agent, sh.(wanted := false, attached := false));
      if sh.attached && sh.id.Some? && agent in s.statuses && s.statuses[agent] in {Live, Attaching}
      then SetStatus(t, agent, Detached)
      else if sh.attached && sh.id.Some? && agent !in s.statuses then SetStatus(t, agent, Starting)
      else t
  }

  function TypeInput(s: State, agent: Agent, bytes: seq<Byte>): State {
    if agent !in s.shells then s
    else
      var sh := s.shells[agent];
      if |sh.input| + |bytes| > MAX_TERMINAL_INPUT
      then (if agent in s.statuses then s else SetStatus(s, agent, Starting))
      else FlushInput(Noted(Put(s, agent, sh.(input := sh.input + bytes)), agent, Accepted(bytes)), agent)
  }

  function ResizeTo(s: State, agent: Agent, size: Size): State {
    if agent !in s.shells || s.shells[agent].size == size then s
    else FlushResize(Put(s, agent, s.shells[agent].(size := size, resizePending := true)), agent)
  }

  function Restart(s: State, agent: Agent, cwd: string, size: Size): State {
    if agent !in s.shells then Open(s, agent, cwd, size)
    else
      var sh := s.shells[agent].(id := None, cwd := cwd, size := size, wanted := true, attached := false, input := []);
      var t := Noted(Put(s, agent, sh), agent, Cleared);
      if s.connected then CreateShell(t, agent) else t
  }

  // ---- events and completions --------------------------------------------

  /** Output of a shell: `kept` is false when the window fell behind. */
  function Output(s: State, agent: Agent, kept: bool): State
    requires agent in s.shells
  {
    if !s.shells[agent].attached then s
    else if !kept then AttachShell(s, agent)
    else if agent !in s.statuses then SetStatus(s, agent, Starting)
    else if s.statuses[agent] == Attaching then SetStatus(s, agent, Live)
    else s
  }

  function Signal(s: State, agent: Agent, exited: bool): State
    requires agent in s.shells
  {
    if exited then ShellEnded(s, agent)
    else if s.shells[agent].attached then AttachShell(s, agent)
    else s
  }

  function Touched(s: State, agent: Agent): State {
    if agent in s.statuses then s else SetStatus(s, agent, Starting)
  }

  function DoneCreated(s: State, agent: Agent, id: Option<Id>): State
    requires agent in s.shells
  {
    if id.None? || id.value == "" then SetStatus(s, agent, Failed)
    else
      var t := Touched(Put(s, agent, s.shells[agent].(id := id)), agent);
      FlushInput(if t.shells[agent].wanted then AttachShell(t, agent) else SetStatus(t, agent, Detached), agent)
  }

  function DoneAttach(s: State, agent: Agent, a: Answer): State
    requires agent in s.shells
  {
    if a.AttachedOk? then
      var t := Touched(s, agent);
      FlushResize(if t.statuses[agent] == Attaching then SetStatus(t, agent, Live) else t, agent)
    else
      var t := Put(s, agent, s.shells[agent].(attached := false));
      if !a.AttachGone? then SetStatus(t, agent, Failed)
      else if t.shells[agent].wanted then CreateShell(t, agent)
      else ShellEnded(t, agent)
  }

  predicate Answers(call: Call, a: Answer) {
    match call
    case Create(_, _) => a.Created?
    case Attach(_) => a.AttachedOk? || a.AttachGone? || a.AttachFailed?
    case Input(_, _) => a.InputDone?
    case Resize(_, _) => a.Resized?
    case Keepalive(_) => a.LeaseHeld? || a.LeaseLapsed?
  }

  /** A completion of this connection, for the agent's present generation. */
  function TerminalDone(s: State, agent: Agent, generation: nat, a: Answer): State {
    if agent !in s.shells || s.shells[agent].generation != generation then s
    else
      var sh := s.shells[agent];
      match a
      case Created(id) => DoneCreated(s, agent, id)
      case AttachedOk => DoneAttach(s, agent, a)
      case AttachGone => DoneAttach(s, agent, a)
      case AttachFailed => DoneAttach(s, agent, a)
      case InputDone(ok) =>
        var t := Put(s, agent, sh.(inputBusy := false));
        FlushInput(if ok then t else Touched(t, agent), agent)
      case Resized => FlushResize(Put(s, agent, sh.(resizeBusy := false)), agent)
      case LeaseLapsed => if sh.attached then AttachShell(s, agent) else s
      case LeaseHeld => s
  }

  function Complete(s: State, j: nat, a: Answer): State
    requires j in s.jobs
  {
    var job := s.jobs[j];
    var t := s.(jobs := s.jobs - {j});
    if job.epoch == s.epoch then TerminalDone(t, job.agent, job.generation, a) else t
  }

  function KeepAlive(s: State, agent: Agent): State
    requires agent in s.shells && s.shells[agent].id.Some?
  {
    PushJob(s, agent, s.shells[agent].generation, Keepalive(s.shells[agent].id.value))
  }

  function Reopen(s: State, agent: Agent): State {
    if agent !in s.shells then s
    else if s.shells[agent].id.Some? then AttachShell(s, agent)
    else if agent !in s.statuses || s.statuses[agent] != Exited then CreateShell(s, agent)
    else s
  }

  function ReopenAll(s: State, agents: seq<Agent>): State
    decreases |agents|
  {
    if agents == [] then s else ReopenAll(Reopen(s, agents[0]), agents[1..])
  }

  /** A new connection resumes, one by one, the shells on screen. */
  function Connected(s: State, agents: seq<Agent>): State {
    ReopenAll(s.(epoch := s.epoch + 1, connected := true), agents)
  }

  function Cut(sh: Shell): Shell {
    sh.(attached := false, input := [], inputBusy := false, resizeBusy := false)
  }

  function CutAll(shells: map<Agent, Shell>): map<Agent, Shell> {
    map a | a in shells :: Cut(shells[a])
  }

  function NotesCleared(notes: map<Agent, seq<Note>>, agents: set<Agent>): map<Agent, seq<Note>> {
    notes + map a | a in agents :: (if a in notes then notes[a] else []) + [Cleared]
  }

  function Wanted(shells: map<Agent, Shell>): set<Agent> {
    set a | a in shells && shells[a].wanted
  }

  function MarkedLost(statuses: map<Agent, Status>, agents: set<Agent>): map<Agent, Status> {
    statuses + map a | a in agents && (a in statuses ==> statuses[a] != Exited) :: Attaching
  }

  /** Nothing is awaited or buffered any more; terminals on screen wait to be resumed. */
  function Disconnected(s: State): State {
    s.(epoch := s.epoch + 1, connected := false, shells := CutAll(s.shells),
       notes := NotesCleared(s.notes, s.shells.Keys), statuses := MarkedLost(s.statuses, Wanted(s.shells)))
  }

  // ---- runs --------------------------------------------------------------

  datatype Step = AdoptStep(known: seq<(Agent, Id)>) | OpenStep(agent: Agent, cwd: string, size: Size)
    | HideStep(agent: Agent) | InputStep(agent: Agent, bytes: seq<Byte>) | ResizeStep(agent: Agent, size: Size)
    | RestartStep(agent: Agent, cwd: string, size: Size)
    | OutputStep(agent: Agent, kept: bool) | SignalStep(agent: Agent, exited: bool)
    | CompleteStep(job: nat, answer: Answer) | KeepAliveStep(agent: Agent)
    | ConnectedStep(agents: seq<Agent>) | DisconnectedStep

  /** Events of a shell name its id and come only over a connection; a connection starts after one ended. */
  predicate Enabled(s: State, step: Step) {
    match step
    case OutputStep(a, _) => s.connected && a in s.shells && s.shells[a].id.Some?
    case SignalStep(a, _) => s.connected && a in s.shells && s.shells[a].id.Some?
    case CompleteStep(j, answer) => j in s.jobs && Answers(s.jobs[j].call, answer)
    case KeepAliveStep(a) => s.connected && a in s.shells && s.shells[a].attached && s.shells[a].id.Some?
    case ConnectedStep(agents) =>
      && !s.connected
      && (set a | a in agents) == Wanted(s.shells)
      && (forall i, j :: 0 <= i < j < |agents| ==> agents[i] != agents[j])
    case _ => true
  }

  function Next(s: State, step: Step): State
    requires Enabled(s, step)
  {
    match step
    case AdoptStep(known) => Adopt(s, known)
    case OpenStep(a, cwd, size) => Open(s, a, cwd, size)
    case HideStep(a) => Hide(s, a)
    case InputStep(a, bytes) => TypeInput(s, a, bytes)
    case ResizeStep(a, size) => ResizeTo(s, a, size)
    case RestartStep(a, cwd, size) => Restart(s, a, cwd, size)
    case OutputStep(a, kept) => Output(s, a, kept)
    case SignalStep(a, exited) => Signal(s, a, exited)
    case CompleteStep(j, answer) => Complete(s, j, answer)
    case KeepAliveStep(a) => KeepAlive(s, a)
    case ConnectedStep(agents) => Connected(s, agents)
    case DisconnectedStep => Disconnected(s)
  }

  function Exec(s: State, steps: seq<Step>): Option<State>
    decreases |steps|
  {
    if steps == [] then Some(s)
    else if Enabled(s, steps[0]) then Exec(Next(s, steps[0]), steps[1..])
    else None
  }
}
