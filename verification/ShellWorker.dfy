/** The worker's shell methods as they change its fields, each proved to be the matching function of `Shells`. */
module ShellWorker {
  import opened Wrappers
  import opened Shells
  import opened ShellProof
  import opened ShellRuns

  // ---- what the methods rely on ------------------------------------------

  lemma CreateTold(s: State, a: Agent)
    requires a in s.shells
    ensures ToldSize(Shells.CreateShell(s, a).shells[a], Notes(Shells.CreateShell(s, a), a))
  {
    OneMore(Notes(s, a), SentSize(s.shells[a].size, s.nextJob));
  }

  lemma OpenedReady(s: State, a: Agent, cwd: string, size: Size)
    requires Inv(s)
    ensures var sh := Opened(if a in s.shells then s.shells[a] else NewShell(cwd, size), cwd, size);
      var t := Put(s, a, sh);
      if sh.id.Some? || !s.connected then Inv(t) else Creatable(t, a)
  {
    hide Inv, Core, Sizes, Opened, NewShell;
    OpenedEntry(s, a, cwd, size);
  }

  lemma TypedTaken(s: State, a: Agent, bytes: seq<Byte>)
    requires Inv(s) && a in s.shells
    ensures AcceptedBytes(Notes(TypeInput(s, a, bytes), a)) == AcceptedBytes(Notes(s, a)) +
      if |s.shells[a].input| + |bytes| > MAX_TERMINAL_INPUT then [] else bytes
  {
    hide AcceptedBytes, Inv, Shells.FlushInput, Notes, Noted;
    if |s.shells[a].input| + |bytes| > MAX_TERMINAL_INPUT {
      assert Notes(TypeInput(s, a, bytes), a) == Notes(s, a) by { StatusNotes(s, a); }
    } else {
      TypedKeeps(s, a, bytes);
      FlushAccepts(Typed(s, a, bytes), a);
    }
  }

  lemma StatusNotes(s: State, a: Agent)
    ensures Notes(SetStatus(s, a, Starting), a) == Notes(s, a)
  {
  }

  /** Handing bytes over accepts none. */
  lemma FlushAccepts(s: State, a: Agent)
    ensures AcceptedBytes(Notes(Shells.FlushInput(s, a), a)) == AcceptedBytes(Notes(s, a))
  {
    hide AcceptedBytes;
    if a in s.shells { OneMore(Notes(s, a), SentInput(s.shells[a].input, s.nextJob)); }
  }

  lemma NamedKeeps(s: State, a: Agent, id: Option<Id>)
    requires Inv(s) && a in s.shells && id.Some? && ToldSize(s.shells[a], Notes(s, a))
    ensures Inv(Put(s, a, s.shells[a].(id := id)))
  {
    hide Inv, ToldSize;
    var p := Put(s, a, s.shells[a].(id := id));
    SameTold(s.shells[a], p.shells[a], Notes(s, a));
    PutKeeps(s, p, a);
  }

  lemma DetachedReady(s: State, a: Agent)
    requires Inv(s) && s.connected && a in s.shells
    ensures var t := Put(s, a, s.shells[a].(attached := false)); Inv(t) && Creatable(t, a)
  {
    hide Core, Sizes;
    var t := Put(s, a, s.shells[a].(attached := false));
    DetachKeeps(s, t, a);
    InvCreatable(t, a);
  }

  lemma InvCreatable(s: State, a: Agent)
    requires Inv(s)
    ensures s.connected ==> Creatable(s, a)
  {
    hide Core;
  }

  /** `v` is a state in order with an answered call just taken off its list. */
  ghost predicate Off(s: State, j: nat, answer: Answer, v: State, agent: Agent, generation: nat) {
    && Inv(s) && j in s.jobs && Answers(s.jobs[j].call, answer) && s.jobs[j].epoch == s.epoch
    && v == Without(s, j) && s.jobs[j].agent == agent && s.jobs[j].generation == generation
  }

  lemma CompleteCases(s: State, j: nat, answer: Answer)
    requires j in s.jobs
    ensures var job := s.jobs[j];
      Shells.Complete(s, j, answer) ==
        if job.epoch == s.epoch then Shells.TerminalDone(Without(s, j), job.agent, job.generation, answer)
        else Without(s, j)
  {
  }

  class Worker {
    var epoch: nat
    var connected: bool
    var shellGeneration: nat
    var shells: map<Agent, Shell>
    var terminals: map<Agent, Status>
    var jobs: map<nat, Job>
    var nextJob: nat
    var notes: map<Agent, seq<Note>>
    ghost var issued: seq<Job>

    ghost function View(): State
      reads this
    {
      State(epoch, connected, shellGeneration, shells, terminals, jobs, nextJob, notes, issued)
    }

    /** Each agent's bytes, calls and sizes are in order, as `ShellRuns` shows of every run. */
    ghost predicate Valid()
      reads this
    {
      Inv(View())
    }

    constructor ()
      ensures View() == Init() && Valid()
    {
      epoch, connected, shellGeneration, nextJob := 0, false, 0, 0;
      shells, terminals, jobs, notes, issued := map[], map[], map[], map[], [];
    }

    method SetTerminal(agent: Agent, status: Status)
      modifies `terminals
      ensures View() == SetStatus(old(View()), agent, status)
    {
      terminals := terminals[agent := status];
    }

    method Note(agent: Agent, note: Shells.Note)
      modifies `notes
      ensures View() == Noted(old(View()), agent, note)
    {
      notes := notes[agent := (if agent in notes then notes[agent] else []) + [note]];
    }

    method PushJob(agent: Agent, generation: nat, call: Call)
      modifies `jobs, `nextJob, `issued
      ensures View() == Shells.PushJob(old(View()), agent, generation, call)
    {
      jobs := jobs[nextJob := Job(epoch, agent, generation, call)];
      issued := issued + [Job(epoch, agent, generation, call)];
      nextJob := nextJob + 1;
    }

    /** A new shell, told the present size; nothing of the former one is waited for any more. */
    method CreateShell(agent: Agent)
      requires Creatable(View(), agent)
      modifies this
      ensures View() == Shells.CreateShell(old(View()), agent)
      ensures Valid() && (agent in shells ==> ToldSize(shells[agent], Notes(View(), agent)))
    {
      hide Inv, Creatable, LastTold;
      CreatableKeeps(View(), agent);
      if agent in shells { CreateTold(View(), agent); }
      shellGeneration := shellGeneration + 1;
      if agent !in shells {
        return;
      }
      var shell := shells[agent].(generation := shellGeneration, id := None, attached := false, inputBusy := false,
                                  resizeBusy := false, resizePending := false);
      shells := shells[agent := shell];
      SetTerminal(agent, Starting);
      PushJob(agent, shell.generation, Create(shell.cwd, shell.size));
      Note(agent, SentSize(shell.size, nextJob - 1));
    }

    method AttachShell(agent: Agent)
      requires Valid() && connected
      modifies `shells, `terminals, `jobs, `nextJob, `issued
      ensures View() == Shells.AttachShell(old(View()), agent)
      ensures Valid()
    {
      hide Inv;
      AttachKeeps(View(), agent);
      if agent !in shells || shells[agent].id.None? {
        return;
      }
      var id := shells[agent].id.value;
      shells := shells[agent := shells[agent].(attached := true)];
      SetTerminal(agent, Attaching);
      PushJob(agent, shells[agent].generation, Attach(id));
    }

    /** While connected to a shell nothing stays buffered unless a call is out. */
    method FlushInput(agent: Agent)
      requires Valid()
      modifies `shells, `jobs, `nextJob, `issued, `notes
      ensures View() == Shells.FlushInput(old(View()), agent)
      ensures Valid() && Promised(View())
      ensures agent in shells && shells[agent].id.Some? && connected ==>
        shells[agent].inputBusy || shells[agent].input == []
    {
      hide Inv, Promised;
      FlushInputKeeps(View(), agent);
      InvPromises(Shells.FlushInput(View(), agent));
      if agent !in shells || shells[agent].id.None? {
        return;
      }
      var shell := shells[agent];
      if shell.inputBusy || shell.input == [] || !connected {
        return;
      }
      var bytes := shell.input;
      shells := shells[agent := shell.(inputBusy := true, input := [])];
      PushJob(agent, shell.generation, Call.Input(shell.id.value, bytes));
      Note(agent, SentInput(bytes, nextJob - 1));
    }

    /** While connected to a shell no size waits unless a resize is out. */
    method FlushResize(agent: Agent)
      requires Valid()
      modifies `shells, `jobs, `nextJob, `issued, `notes
      ensures View() == Shells.FlushResize(old(View()), agent)
      ensures Valid() && Promised(View())
      ensures agent in shells && shells[agent].id.Some? && connected ==>
        shells[agent].resizeBusy || !shells[agent].resizePending
    {
      hide Inv, Promised;
      FlushResizeKeeps(View(), agent);
      InvPromises(Shells.FlushResize(View(), agent));
      if agent !in shells || shells[agent].id.None? {
        return;
      }
      var shell := shells[agent];
      if shell.resizeBusy || !shell.resizePending || !connected {
        return;
      }
      shells := shells[agent := shell.(resizeBusy := true, resizePending := false)];
      PushJob(agent, shell.generation, Call.Resize(shell.id.value, shell.size));
      Note(agent, SentSize(shell.size, nextJob - 1));
    }

    method ShellEnded(agent: Agent)
      requires Valid()
      modifies `shells, `notes, `terminals
      ensures View() == Shells.ShellEnded(old(View()), agent)
      ensures Valid() && (agent in shells ==> shells[agent].input == [])
    {
      hide Inv;
      EndedKeeps(View(), agent);
      if agent in shells {
        shells := shells[agent := shells[agent].(id := None, attached := false, input := [])];
        Note(agent, Cleared);
      }
      SetTerminal(agent, Exited);
    }

    /** One remembered shell, unless the agent has one or its id is empty. */
    method Join(agent: Agent, id: Id)
      modifies this
      ensures View() == AdoptOne(old(View()), agent, id)
    {
      if agent !in shells && id != "" {
        shellGeneration := shellGeneration + 1;
        shells := shells[agent := Shell(Some(id), "", false, false, shellGeneration, [], false, DEFAULT_SIZE,
                                        false, false)];
        SetTerminal(agent, Detached);
        Note(agent, Adopted);
      }
    }

    /** Shells remembered from an earlier run; what is known here already stays. */
    method Adopt(known: seq<(Agent, Id)>)
      requires Valid()
      modifies this
      ensures View() == Shells.Adopt(old(View()), known)
      ensures Valid()
    {
      hide Inv, AdoptOne;
      ghost var start := View();
      var i := 0;
      while i < |known|
        invariant 0 <= i <= |known|
        invariant Valid()
        invariant Shells.Adopt(start, known) == Shells.Adopt(View(), known[i..])
      {
        var (agent, id) := known[i];
        ghost var before := View();
        AdoptOneKeeps(before, agent, id);
        Join(agent, id);
        assert known[i..][0] == (agent, id) && known[i..][1..] == known[i + 1..];
        i := i + 1;
      }
    }

    /** The agent's entry, shown and of the given size. */
    method Want(agent: Agent, cwd: string, size: Size)
      modifies `shells
      ensures View() == Put(old(View()), agent, Opened(if agent in old(shells) then old(shells)[agent]
                                                       else NewShell(cwd, size), cwd, size))
    {
      var shell := if agent in shells then shells[agent]
                   else Shell(None, cwd, false, false, 0, [], false, size, false, false);
      shell := shell.(wanted := true);
      if shell.cwd == "" {
        shell := shell.(cwd := cwd);
      }
      if shell.size != size {
        shell := shell.(size := size, resizePending := shell.id.Some?);
      }
      shells := shells[agent := shell];
    }

    method Open(agent: Agent, cwd: string, size: Size)
      requires Valid()
      modifies this
      ensures View() == Shells.Open(old(View()), agent, cwd, size)
      ensures Valid()
    {
      hide Inv, Creatable, Shells.CreateShell, Shells.AttachShell, Shells.FlushResize, Opened, NewShell;
      OpenedReady(View(), agent, cwd, size);
      Want(agent, cwd, size);
      if !connected {
        StatusInv(View(), agent, Failed);
        SetTerminal(agent, Failed);
        return;
      }
      var shell := shells[agent];
      if shell.id.Some? {
        if !shell.attached {
          AttachShell(agent);
        }
      } else {
        CreateShell(agent);
      }
      FlushResize(agent);
    }

    method Hide(agent: Agent)
      requires Valid()
      modifies `shells, `terminals
      ensures View() == Shells.Hide(old(View()), agent)
      ensures Valid()
    {
      hide Inv;
      HideKeeps(View(), agent);
      if agent !in shells {
        return;
      }
      var shell := shells[agent];
      var detach := shell.attached && shell.id.Some?;
      shells := shells[agent := shell.(wanted := false, attached := false)];
      if detach {
        if agent !in terminals {
          SetTerminal(agent, Starting);
        } else if terminals[agent] in {Live, Attaching} {
          SetTerminal(agent, Detached);
        }
      }
    }

    /** Input is taken whole, after what was taken before, or refused whole; never more than 1 MiB is
        held. */
    method Input(agent: Agent, bytes: seq<Byte>)
      requires Valid()
      modifies `shells, `terminals, `jobs, `nextJob, `issued, `notes
      ensures View() == TypeInput(old(View()), agent, bytes)
      ensures Valid() && Promised(View())
      ensures agent in old(shells) ==>
        AcceptedBytes(Notes(View(), agent)) == AcceptedBytes(Notes(old(View()), agent)) +
          if |old(shells[agent].input)| + |bytes| > MAX_TERMINAL_INPUT then [] else bytes
    {
      hide Inv, Promised, Shells.FlushInput, AcceptedBytes;
      InvPromises(View());
      if agent in shells { TypedTaken(View(), agent, bytes); }
      if agent !in shells {
        return;
      }
      var shell := shells[agent];
      if |shell.input| + |bytes| > MAX_TERMINAL_INPUT {
        StatusInv(View(), agent, Starting);
        InvPromises(SetStatus(View(), agent, Starting));
        if agent !in terminals {
          SetTerminal(agent, Starting);
        }
        return;
      }
      TypedKeeps(View(), agent, bytes);
      shells := shells[agent := shell.(input := shell.input + bytes)];
      Note(agent, Accepted(bytes));
      FlushInput(agent);
    }

    method Resize(agent: Agent, size: Size)
      requires Valid()
      modifies `shells, `jobs, `nextJob, `issued, `notes
      ensures View() == ResizeTo(old(View()), agent, size)
      ensures Valid() && Promised(View())
    {
      hide Inv, Promised, Shells.FlushResize;
      InvPromises(View());
      if agent !in shells {
        return;
      }
      if shells[agent].size != size {
        SizedKeeps(View(), agent, size);
        shells := shells[agent := shells[agent].(size := size, resizePending := true)];
        FlushResize(agent);
      }
    }

    method Restart(agent: Agent, cwd: string, size: Size)
      requires Valid()
      modifies this
      ensures View() == Shells.Restart(old(View()), agent, cwd, size)
      ensures Valid()
    {
      hide Inv, Creatable, Shells.CreateShell, Shells.Open;
      if agent !in shells {
        Open(agent, cwd, size);
        return;
      }
      RestartedEntry(View(), agent, cwd, size);
      shells := shells[agent := shells[agent].(id := None, cwd := cwd, size := size, wanted := true,
                                               attached := false, input := [])];
      Note(agent, Cleared);
      if connected {
        CreateShell(agent);
      }
    }

    method TerminalBytes(agent: Agent, kept: bool)
      requires Valid() && connected && agent in shells
      modifies `shells, `terminals, `jobs, `nextJob, `issued
      ensures View() == Output(old(View()), agent, kept)
      ensures Valid()
    {
      hide Inv, Shells.AttachShell;
      StatusInv(View(), agent, Starting);
      StatusInv(View(), agent, Live);
      if !shells[agent].attached {
        return;
      }
      if kept {
        if agent !in terminals {
          SetTerminal(agent, Starting);
        } else if terminals[agent] == Attaching {
          SetTerminal(agent, Live);
        }
      } else {
        AttachShell(agent);
      }
    }

    method TerminalSignal(agent: Agent, exited: bool)
      requires Valid() && connected && agent in shells
      modifies `shells, `terminals, `jobs, `nextJob, `issued, `notes
      ensures View() == Signal(old(View()), agent, exited)
      ensures Valid()
    {
      hide Inv, Shells.AttachShell, Shells.ShellEnded;
      if exited {
        ShellEnded(agent);
      } else if shells[agent].attached {
        AttachShell(agent);
      }
    }

    method Touch(agent: Agent)
      requires Valid()
      modifies `terminals
      ensures View() == Touched(old(View()), agent)
      ensures Valid()
    {
      hide Inv;
      StatusInv(View(), agent, Starting);
      if agent !in terminals {
        SetTerminal(agent, Starting);
      }
    }

    /** The shell is there, and had been told its size. */
    method Created(agent: Agent, id: Option<Id>)
      requires Valid() && connected && agent in shells
      requires id.Some? ==> ToldSize(shells[agent], Notes(View(), agent))
      modifies this
      ensures View() == DoneCreated(old(View()), agent, id)
      ensures Valid()
    {
      hide Inv, ToldSize, Shells.AttachShell, Shells.FlushInput;
      if id.None? || id.value == "" {
        StatusInv(View(), agent, Failed);
        SetTerminal(agent, Failed);
        return;
      }
      NamedKeeps(View(), agent, id);
      shells := shells[agent := shells[agent].(id := id)];
      Touch(agent);
      if shells[agent].wanted {
        AttachShell(agent);
      } else {
        StatusInv(View(), agent, Detached);
        SetTerminal(agent, Detached);
      }
      FlushInput(agent);
    }

    method Attached(agent: Agent, answer: Answer)
      requires Valid() && connected && agent in shells
      modifies this
      ensures View() == DoneAttach(old(View()), agent, answer)
      ensures Valid()
    {
      hide Inv, Creatable, Shells.CreateShell, Shells.FlushResize, Shells.ShellEnded;
      if answer.AttachedOk? {
        Touch(agent);
        if terminals[agent] == Attaching {
          StatusInv(View(), agent, Live);
          SetTerminal(agent, Live);
        }
        FlushResize(agent);
        return;
      }
      DetachedReady(View(), agent);
      shells := shells[agent := shells[agent].(attached := false)];
      if answer.AttachGone? {
        // A remembered shell that no longer exists: start over.
        if shells[agent].wanted {
          CreateShell(agent);
        } else {
          ShellEnded(agent);
        }
      } else {
        StatusInv(View(), agent, Failed);
        SetTerminal(agent, Failed);
      }
    }

    /** A call is answered: taken off the list, and followed up unless a connection or a generation
        has passed since it was issued. */
    method Complete(job: nat, answer: Answer)
      requires Valid() && job in jobs && Answers(jobs[job].call, answer)
      modifies this
      ensures View() == Shells.Complete(old(View()), job, answer)
      ensures Valid() && Promised(View())
    {
      hide Inv, Promised, Shells.Complete;
      CompleteKeeps(View(), job, answer);
      InvPromises(Shells.Complete(View(), job, answer));
      AnswerReady(View(), job, answer);
      CompleteCases(View(), job, answer);
      ghost var before := View();
      var call := jobs[job];
      jobs := jobs - {job};
      if call.epoch == epoch {
        TerminalDone(call.agent, call.generation, answer, before, job);
      }
    }

    /** `terminal_done`, for the call just taken off the list of `before`. */
    method TerminalDone(agent: Agent, generation: nat, answer: Answer, ghost before: State, ghost job: nat)
      requires Off(before, job, answer, View(), agent, generation)
      modifies this
      ensures View() == Shells.TerminalDone(old(View()), agent, generation, answer)
      ensures Valid()
    {
      hide Inv, ToldSize, Shells.AttachShell, Shells.FlushInput, Shells.FlushResize, DoneCreated, DoneAttach;
      AnswerReady(before, job, answer);
      if agent !in shells || shells[agent].generation != generation {
        return;
      }
      match answer
      case Created(id) => Created(agent, id);
      case AttachedOk => Attached(agent, answer);
      case AttachGone => Attached(agent, answer);
      case AttachFailed => Attached(agent, answer);
      case InputDone(ok) =>
        shells := shells[agent := shells[agent].(inputBusy := false)];
        if !ok {
          Touch(agent);
        }
        FlushInput(agent);
      case Resized =>
        shells := shells[agent := shells[agent].(resizeBusy := false)];
        FlushResize(agent);
      case LeaseLapsed =>
        if shells[agent].attached {
          AttachShell(agent);
        }
      case LeaseHeld =>
    }

    /** After a reconnect, resume every terminal still on screen. */
    method ReopenTerminals(agents: seq<Agent>)
      requires Valid() && connected
      modifies this
      ensures View() == ReopenAll(old(View()), agents)
      ensures Valid()
    {
      hide Inv, Creatable, Shells.AttachShell, Shells.CreateShell;
      ghost var start := View();
      var i := 0;
      while i < |agents|
        invariant 0 <= i <= |agents|
        invariant Valid() && connected
        invariant ReopenAll(start, agents) == ReopenAll(View(), agents[i..])
      {
        var agent := agents[i];
        ghost var before := View();
        ReopenKeeps(before, agent);
        InvCreatable(before, agent);
        if agent in shells {
          if shells[agent].id.Some? {
            AttachShell(agent);
          } else if agent !in terminals || terminals[agent] != Exited {
            CreateShell(agent);
          }
        }
        assert agents[i..][0] == agent && agents[i..][1..] == agents[i + 1..];
        assert View() == Reopen(before, agent);
        i := i + 1;
      }
    }

    /** The first loop: nothing is awaited or buffered any more; says which terminals are on screen. */
    method CutShells() returns (changed: set<Agent>)
      modifies `shells
      ensures shells == CutAll(old(shells)) && changed == Wanted(old(shells))
    {
      ghost var start := shells;
      var left := shells.Keys;
      changed := {};
      while left != {}
        invariant left <= start.Keys && shells.Keys == start.Keys
        invariant forall a :: a in shells ==> shells[a] == if a in left then start[a] else Cut(start[a])
        invariant forall a :: a in changed <==> a in start && a !in left && start[a].wanted
        decreases |left|
      {
        var agent :| agent in left;
        var shell := shells[agent];
        shells := shells[agent := shell.(attached := false, input := [], inputBusy := false, resizeBusy := false)];
        assert shells[agent] == Cut(start[agent]);
        if shell.wanted {
          changed := changed + {agent};
        }
        left := left - {agent};
      }
    }

    /** The second loop: the terminals on screen wait to be resumed. */
    method MarkLost(changed: set<Agent>)
      modifies `terminals
      ensures terminals == MarkedLost(old(terminals), changed)
    {
      ghost var start := terminals;
      var left := changed;
      while left != {}
        invariant left <= changed
        invariant terminals == start +
          map a | a in changed && a !in left && (a in start ==> start[a] != Exited) :: Attaching
        decreases |left|
      {
        var agent :| agent in left;
        if agent !in terminals || terminals[agent] != Exited {
          SetTerminal(agent, Attaching);
        }
        left := left - {agent};
      }
    }

    /** Nothing is awaited or buffered once the connection is gone. */
    method TerminalsDisconnected()
      requires Valid()
      modifies this
      ensures View() == Disconnected(old(View()))
      ensures Valid() && forall a :: a in shells ==> shells[a].input == [] && Idle(shells[a])
    {
      DisconnectedKeeps(View());
      hide Inv, CutAll, NotesCleared, Wanted, MarkedLost;
      epoch, connected, notes := epoch + 1, false, NotesCleared(notes, shells.Keys);
      var changed := CutShells();
      MarkLost(changed);
    }
  }
}
