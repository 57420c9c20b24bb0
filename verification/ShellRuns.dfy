/** Completions, connections and whole runs of the agents' shells: typed bytes go out in order and once,
    one input call at a time, and the hub was last told the present size (controller.rs). */
module ShellRuns {
  import opened Wrappers
  import opened Shells
  import opened ShellProof

  // ---- a completion taken from the list ----------------------------------

  function Without(s: State, j: nat): State {
    s.(jobs := s.jobs - {j})
  }

  /** Taking out a call nothing waits for. */
  lemma DropKeeps(s: State, j: nat)
    requires Inv(s) && j in s.jobs
    requires IsLive(s, s.jobs[j]) ==> !s.jobs[j].call.Input? && !s.jobs[j].call.Resize?
    ensures Inv(Without(s, j))
  {
    hide BytesKept, LastTold, LastInput, LastSizing, ToldSize;
    var t := Without(s, j);
    forall a | a in t.shells ensures ShellOk(t, a) && SizeOk(t, a) {
      assert ShellOk(s, a) && SizeOk(s, a) && Notes(t, a) == Notes(s, a);
      forall k | k in t.jobs && t.jobs[k].agent == a ensures JobOk(t, k) {
        assert JobOk(s, k);
      }
    }
  }

  /** Taking out the call a flag waits for, and lowering the flag. */
  lemma LowerKeeps(s: State, j: nat, t: State, a: Agent)
    requires Inv(s) && j in s.jobs && IsLive(s, s.jobs[j]) && a == s.jobs[j].agent
    requires s.jobs[j].call.Input? || s.jobs[j].call.Resize?
    requires t == Put(Without(s, j), a, if s.jobs[j].call.Input? then s.shells[a].(inputBusy := false)
                                        else s.shells[a].(resizeBusy := false))
    ensures Inv(t)
  {
    hide LastTold, LastInput, LastSizing, AcceptedBytes, IssuedBytes;
    assert ShellOk(s, a) && JobOk(s, j) && SizeOk(s, a);
    forall b | b in t.shells ensures ShellOk(t, b) && SizeOk(t, b) {
      assert Notes(t, b) == Notes(s, b);
      if b == a {
        LoweredOne(s, j, t, a);
      } else {
        Unmoved(s, t, b);
      }
    }
  }

  lemma LoweredOne(s: State, j: nat, t: State, a: Agent)
    requires Inv(s) && j in s.jobs && IsLive(s, s.jobs[j]) && a == s.jobs[j].agent
    requires s.jobs[j].call.Input? || s.jobs[j].call.Resize?
    requires t == Put(Without(s, j), a, if s.jobs[j].call.Input? then s.shells[a].(inputBusy := false)
                                        else s.shells[a].(resizeBusy := false))
    ensures ShellOk(t, a) && SizeOk(t, a)
  {
    hide LastTold, LastInput, LastSizing, AcceptedBytes, IssuedBytes, Notes;
    assert ShellOk(s, a) && JobOk(s, j) && SizeOk(s, a) && Notes(t, a) == Notes(s, a) by { SameNotes(s, t, a); }
    forall k | k in t.jobs && t.jobs[k].agent == a ensures JobOk(t, k) {
      assert JobOk(s, k);
    }
  }

  lemma SameNotes(s: State, t: State, a: Agent)
    requires Inv(s) && a in s.shells && t.notes == s.notes
    ensures Notes(t, a) == Notes(s, a) && ShellOk(s, a) && SizeOk(s, a)
    ensures forall j :: j in s.jobs && s.jobs[j].agent == a ==> JobOk(s, j)
  {
    assert ShellOk(s, a);
  }

  // ---- what a completion does --------------------------------------------

  lemma StatusInv(s: State, a: Agent, status: Status)
    requires Inv(s)
    ensures Inv(SetStatus(s, a, status))
  {
    hide Core, Sizes;
    StatusKeeps(s, a, status);
  }

  lemma CreatedKeeps(s: State, a: Agent, id: Option<Id>)
    requires Inv(s) && a in s.shells && s.connected
    requires id.Some? ==> ToldSize(s.shells[a], Notes(s, a))
    ensures Inv(DoneCreated(s, a, id))
  {
    hide Inv, ToldSize, AttachShell, FlushInput;
    if id.None? || id.value == "" {
      StatusInv(s, a, Failed);
    } else {
      var p := Put(s, a, s.shells[a].(id := id));
      assert ToldSize(p.shells[a], Notes(s, a)) by { SameTold(s.shells[a], p.shells[a], Notes(s, a)); }
      PutKeeps(s, p, a);
      StatusInv(p, a, Starting);
      var t := Touched(p, a);
      AttachKeeps(t, a);
      StatusInv(t, a, Detached);
      FlushInputKeeps(if t.shells[a].wanted then AttachShell(t, a) else SetStatus(t, a, Detached), a);
    }
  }

  lemma SameTold(sh: Shell, t: Shell, notes: seq<Note>)
    requires t.resizePending == sh.resizePending && t.size == sh.size
    ensures ToldSize(t, notes) <==> ToldSize(sh, notes)
  {
  }

  lemma AttachDoneKeeps(s: State, a: Agent, answer: Answer)
    requires Inv(s) && a in s.shells && s.connected
    ensures Inv(DoneAttach(s, a, answer))
  {
    hide Inv, ToldSize, CreateShell, FlushResize, ShellEnded;
    if answer.AttachedOk? {
      StatusInv(s, a, Starting);
      var t := Touched(s, a);
      StatusInv(t, a, Live);
      FlushResizeKeeps(if t.statuses[a] == Attaching then SetStatus(t, a, Live) else t, a);
    } else {
      var t := Put(s, a, s.shells[a].(attached := false));
      DetachKeeps(s, t, a);
      StatusInv(t, a, Failed);
      EndedKeeps(t, a);
      InvParts(t);
      CreateKeeps(t, a);
    }
  }

  lemma DetachKeeps(s: State, t: State, a: Agent)
    requires Inv(s) && a in s.shells && t == Put(s, a, s.shells[a].(attached := false))
    ensures Inv(t)
  {
    hide Core, Sizes, SizeOk, LastInput, LastSizing, AcceptedBytes, IssuedBytes, LastTold;
    Known(s, a);
    PutKeeps(s, t, a);
  }

  /** What is left to do once a call is off the list starts from a state in order: its flag, if it
      had one, lowered. */
  lemma AnswerReady(s: State, j: nat, answer: Answer)
    requires Inv(s) && j in s.jobs && Answers(s.jobs[j].call, answer)
    ensures var job, t := s.jobs[j], Without(s, j);
      if !IsLive(s, job) then Inv(t)
      else
        && s.connected
        && match job.call {
          case Create(_, _) =>
            Inv(t) && (answer.id.Some? ==> ToldSize(t.shells[job.agent], Notes(t, job.agent)))
          case Input(_, _) => Inv(Put(t, job.agent, t.shells[job.agent].(inputBusy := false)))
          case Resize(_, _) => Inv(Put(t, job.agent, t.shells[job.agent].(resizeBusy := false)))
          case _ => Inv(t)
        }
  {
    hide Inv, ToldSize;
    var job, t := s.jobs[j], Without(s, j);
    if !IsLive(s, job) {
      DropKeeps(s, j);
      return;
    }
    LiveMeansConnected(s, j);
    match job.call
    case Create(_, _) =>
      DropKeeps(s, j);
      if answer.id.Some? { LiveCreateWasTold(s, j); }
      assert Notes(t, job.agent) == Notes(s, job.agent);
    case Input(_, _) => LowerKeeps(s, j, Put(t, job.agent, s.shells[job.agent].(inputBusy := false)), job.agent);
    case Resize(_, _) => LowerKeeps(s, j, Put(t, job.agent, s.shells[job.agent].(resizeBusy := false)), job.agent);
    case _ => DropKeeps(s, j);
  }

  /** A call answered: of an earlier connection or shell it is only taken out. */
  lemma CompleteKeeps(s: State, j: nat, answer: Answer)
    requires Inv(s) && j in s.jobs && Answers(s.jobs[j].call, answer)
    ensures Inv(Complete(s, j, answer))
  {
    hide Inv, ToldSize, DoneCreated, DoneAttach, FlushInput, FlushResize, AttachShell;
    AnswerReady(s, j, answer);
    var job, t := s.jobs[j], Without(s, j);
    var a := job.agent;
    if !IsLive(s, job) { return; }
    match job.call
    case Create(_, _) => CreatedKeeps(t, a, answer.id);
    case Attach(_) => AttachDoneKeeps(t, a, answer);
    case Input(_, _) =>
      var u := Put(t, a, s.shells[a].(inputBusy := false));
      StatusInv(u, a, Starting);
      FlushInputKeeps(if answer.ok then u else Touched(u, a), a);
    case Resize(_, _) => FlushResizeKeeps(Put(t, a, s.shells[a].(resizeBusy := false)), a);
    case Keepalive(_) => AttachKeeps(t, a);
  }

  lemma LiveMeansConnected(s: State, j: nat)
    requires Inv(s) && j in s.jobs && IsLive(s, s.jobs[j])
    ensures s.connected
  {
    assert ShellOk(s, s.jobs[j].agent) && JobOk(s, j);
  }

  lemma LiveCreateWasTold(s: State, j: nat)
    requires Inv(s) && j in s.jobs && IsLive(s, s.jobs[j]) && s.jobs[j].call.Create?
    ensures ToldSize(s.shells[s.jobs[j].agent], Notes(s, s.jobs[j].agent))
  {
    assert SizeOk(s, s.jobs[j].agent);
  }

  // ---- connections -------------------------------------------------------

  lemma ReopenKeeps(s: State, a: Agent)
    requires Inv(s) && s.connected
    ensures Inv(Reopen(s, a)) && Reopen(s, a).connected
  {
    hide Core, Sizes;
    AttachKeeps(s, a);
    if a in s.shells {
      InvParts(s);
      CreateKeeps(s, a);
    }
  }

  lemma {:induction false} ReopenAllKeeps(s: State, agents: seq<Agent>)
    requires Inv(s) && s.connected
    ensures Inv(ReopenAll(s, agents))
    decreases |agents|
  {
    hide Inv, Reopen;
    if agents != [] {
      ReopenKeeps(s, agents[0]);
      ReopenAllKeeps(Reopen(s, agents[0]), agents[1..]);
    }
  }

  /** A shell with nothing buffered and nothing awaited. */
  predicate Idle(sh: Shell) {
    !sh.inputBusy && !sh.resizeBusy
  }

  lemma NewEpoch(s: State, connected: bool)
    requires Inv(s) && forall a :: a in s.shells ==> Idle(s.shells[a])
    ensures Inv(s.(epoch := s.epoch + 1, connected := connected))
  {
    hide BytesKept, LastTold, LastInput, LastSizing, ToldSize;
    var t := s.(epoch := s.epoch + 1, connected := connected);
    forall a | a in t.shells ensures ShellOk(t, a) && SizeOk(t, a) {
      assert ShellOk(s, a) && SizeOk(s, a) && Idle(s.shells[a]) && Notes(t, a) == Notes(s, a);
      forall k | k in t.jobs && t.jobs[k].agent == a ensures JobOk(t, k) && !IsLive(t, t.jobs[k]) {
        assert JobOk(s, k);
      }
    }
  }

  lemma DisconnectedKeeps(s: State)
    requires Inv(s)
    ensures Inv(Disconnected(s))
  {
    hide ShellOk, SizeOk;
    var t := Disconnected(s);
    forall a | a in t.shells ensures ShellOk(t, a) && SizeOk(t, a) {
      CutKeeps(s, t, a);
    }
  }

  lemma CutKeeps(s: State, t: State, a: Agent)
    requires Inv(s) && t == Disconnected(s) && a in s.shells
    ensures a in t.shells && ShellOk(t, a) && SizeOk(t, a)
  {
    hide LastTold, LastInput, LastSizing, AcceptedBytes, IssuedBytes, Notes, Disconnected, BytesKept, ToldSize;
    CutNotes(s, t, a);
    forall k | k in t.jobs && t.jobs[k].agent == a ensures JobOk(t, k) && !IsLive(t, t.jobs[k]) {
      assert JobOk(s, k);
    }
  }

  lemma CutNotes(s: State, t: State, a: Agent)
    requires Inv(s) && t == Disconnected(s) && a in s.shells
    ensures a in t.shells && t.shells[a] == Cut(s.shells[a]) && Notes(t, a) == Notes(s, a) + [Cleared]
    ensures BytesKept(t.shells[a], Notes(t, a)) && t.shells[a].generation <= t.generation
    ensures forall k :: k in s.jobs && s.jobs[k].agent == a ==> JobOk(s, k)
    ensures t.shells[a].id.Some? ==> ToldSize(t.shells[a], Notes(t, a))
    ensures t.jobs == s.jobs && t.epoch == s.epoch + 1 && !t.connected && t.shells.Keys == s.shells.Keys
  {
    hide LastTold, LastInput, LastSizing, AcceptedBytes, IssuedBytes;
    assert ShellOk(s, a) && SizeOk(s, a);
    OneMore(Notes(s, a), Cleared);
  }

  /** While the connection is down nothing is awaited. */
  lemma NothingAwaited(s: State)
    requires Inv(s) && !s.connected
    ensures forall a :: a in s.shells ==> Idle(s.shells[a])
  {
    hide BytesKept, LastTold, ToldSize;
    forall a | a in s.shells ensures Idle(s.shells[a]) {
      assert ShellOk(s, a) && BusyMeansOne(s, a);
      forall j | j in s.jobs && s.jobs[j].agent == a ensures !IsLive(s, s.jobs[j]) {
        assert JobOk(s, j);
      }
    }
  }

  lemma OutputKeeps(s: State, a: Agent, kept: bool)
    requires Inv(s) && s.connected && a in s.shells
    ensures Inv(Output(s, a, kept))
  {
    hide Inv, AttachShell;
    AttachKeeps(s, a);
    StatusInv(s, a, Starting);
    StatusInv(s, a, Live);
  }

  lemma KeepAliveKeeps(s: State, a: Agent)
    requires Inv(s) && s.connected && a in s.shells && s.shells[a].id.Some?
    ensures Inv(KeepAlive(s, a))
  {
    hide Core, Sizes, SizeOk, LastInput, LastSizing, AcceptedBytes, IssuedBytes, LastTold;
    Known(s, a);
    ChangeKeeps(s, KeepAlive(s, a), a, s.shells[a], Notes(s, a), Some(Keepalive(s.shells[a].id.value)));
  }

  // ---- every run ---------------------------------------------------------

  lemma StepKeeps(s: State, step: Step)
    requires Inv(s) && Enabled(s, step)
    ensures Inv(Next(s, step))
  {
    hide Inv, Open, Hide, TypeInput, ResizeTo, Restart, Output, Complete, KeepAlive, ReopenAll, ShellEnded, AttachShell,
      Disconnected;
    match step
    case AdoptStep(known) => AdoptKeeps(s, known);
    case OpenStep(a, cwd, size) => OpenKeeps(s, a, cwd, size);
    case HideStep(a) => HideKeeps(s, a);
    case InputStep(a, bytes) => InputKeeps(s, a, bytes);
    case ResizeStep(a, size) => ResizeKeeps(s, a, size);
    case RestartStep(a, cwd, size) => RestartKeeps(s, a, cwd, size);
    case OutputStep(a, kept) => OutputKeeps(s, a, kept);
    case SignalStep(a, exited) =>
      EndedKeeps(s, a);
      AttachKeeps(s, a);
    case CompleteStep(j, answer) => CompleteKeeps(s, j, answer);
    case KeepAliveStep(a) => KeepAliveKeeps(s, a);
    case ConnectedStep(agents) =>
      NothingAwaited(s);
      NewEpoch(s, true);
      ReopenAllKeeps(s.(epoch := s.epoch + 1, connected := true), agents);
    case DisconnectedStep => DisconnectedKeeps(s);
  }

  lemma {:induction false} RunKeeps(s: State, steps: seq<Step>)
    requires Inv(s) && Exec(s, steps).Some?
    ensures Inv(Exec(s, steps).value)
    decreases |steps|
  {
    hide Inv, Next, Enabled;
    if steps != [] {
      StepKeeps(s, steps[0]);
      RunKeeps(Next(s, steps[0]), steps[1..]);
    }
  }
}
