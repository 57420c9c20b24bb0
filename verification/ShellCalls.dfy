/** What the shells' calls carry (controller.rs). */
module ShellCalls {
  import opened Wrappers
  import opened Shells
  import opened ShellProof
  import opened ShellRuns

  // ---- each call ---------------------------------------------------------

  /** Everything buffered goes out in one call, to the agent's own shell, exactly when there is something,
      the shell is there, the hub is and no other input call is out. */
  lemma FlushInputSends(s: State, a: Agent)
    ensures FlushInput(s, a) != s <==>
      && a in s.shells && s.shells[a].id.Some? && s.connected
      && s.shells[a].input != [] && !s.shells[a].inputBusy
    ensures FlushInput(s, a) != s ==>
      var t, sh := FlushInput(s, a), s.shells[a];
      && t.jobs == s.jobs[s.nextJob := Job(s.epoch, a, sh.generation, Input(sh.id.value, sh.input))]
      && t.shells == s.shells[a := sh.(input := [], inputBusy := true)]
  {
    if FlushInput(s, a) != s { assert FlushInput(s, a).nextJob == s.nextJob + 1; }
    if a in s.shells && s.shells[a].id.Some? && s.connected && s.shells[a].input != [] && !s.shells[a].inputBusy {
      assert FlushInput(s, a).nextJob == s.nextJob + 1;
    }
  }

  /** The newest size goes to the agent's own shell exactly when it is pending and no other resize is out. */
  lemma FlushResizeSends(s: State, a: Agent)
    ensures FlushResize(s, a) != s <==>
      && a in s.shells && s.shells[a].id.Some? && s.connected
      && s.shells[a].resizePending && !s.shells[a].resizeBusy
    ensures FlushResize(s, a) != s ==>
      var t, sh := FlushResize(s, a), s.shells[a];
      && t.jobs == s.jobs[s.nextJob := Job(s.epoch, a, sh.generation, Resize(sh.id.value, sh.size))]
      && t.shells == s.shells[a := sh.(resizePending := false, resizeBusy := true)]
  {
    if FlushResize(s, a) != s { assert FlushResize(s, a).nextJob == s.nextJob + 1; }
    if a in s.shells && s.shells[a].id.Some? && s.connected && s.shells[a].resizePending && !s.shells[a].resizeBusy {
      assert FlushResize(s, a).nextJob == s.nextJob + 1;
    }
  }

  /** A shell is created in the agent's folder and size under a generation never used before; an attach or a
      keep-alive names the shell there is. */
  lemma ShellIsAskedFor(s: State, a: Agent)
    requires a in s.shells
    ensures var t := CreateShell(s, a);
      && t.jobs == s.jobs[s.nextJob := Job(s.epoch, a, s.generation + 1, Create(s.shells[a].cwd, s.shells[a].size))]
      && t.shells[a].generation == s.generation + 1 == t.generation && t.shells[a].id.None?
      && t.shells[a].input == s.shells[a].input && t.statuses == s.statuses[a := Starting]
    ensures s.shells[a].id.Some? ==>
      var t := AttachShell(s, a);
      && t.jobs == s.jobs[s.nextJob := Job(s.epoch, a, s.shells[a].generation, Attach(s.shells[a].id.value))]
      && t.shells == s.shells[a := s.shells[a].(attached := true)] && t.statuses == s.statuses[a := Attaching]
    ensures s.shells[a].id.Some? ==>
      KeepAlive(s, a).jobs ==
        s.jobs[s.nextJob := Job(s.epoch, a, s.shells[a].generation, Keepalive(s.shells[a].id.value))]
  {
  }

  // ---- over runs ---------------------------------------------------------

  /** The note tells of a call of this agent's, with what that call carries. */
  predicate Tells(issued: seq<Job>, a: Agent, n: Note) {
    match n
    case SentInput(bytes, j) =>
      j < |issued| && issued[j].agent == a && issued[j].call.Input? && issued[j].call.bytes == bytes
    case SentSize(size, j) =>
      && j < |issued| && issued[j].agent == a
      && (issued[j].call.Create? || issued[j].call.Resize?) && issued[j].call.size == size
    case _ => true
  }

  predicate NotesTell(issued: seq<Job>, a: Agent, notes: seq<Note>) {
    forall i :: 0 <= i < |notes| ==> Tells(issued, a, notes[i])
  }

  /** A call that carries bytes or a size was noted. */
  predicate WasNoted(s: State, j: nat)
    requires j < |s.issued|
  {
    var job := s.issued[j];
    match job.call
    case Input(_, bytes) => SentInput(bytes, j) in Notes(s, job.agent)
    case Create(_, size) => SentSize(size, j) in Notes(s, job.agent)
    case Resize(_, size) => SentSize(size, j) in Notes(s, job.agent)
    case _ => true
  }

  /** The list of outstanding calls is part of all that were issued, and notes and calls tell the same. */
  ghost predicate CallsInv(s: State) {
    && |s.issued| == s.nextJob
    && (forall j :: j in s.jobs ==> j < |s.issued| && s.jobs[j] == s.issued[j])
    && (forall a {:trigger Notes(s, a)} :: NotesTell(s.issued, a, Notes(s, a)))
    && (forall j {:trigger WasNoted(s, j)} :: 0 <= j < |s.issued| ==> WasNoted(s, j))
  }

  /** What a step may do to calls: take some off the list, note, and issue noted calls one by one. */
  ghost predicate SameCalls(s: State, t: State) {
    t.issued == s.issued && t.nextJob == s.nextJob && t.notes == s.notes
    && forall j :: j in t.jobs ==> j in s.jobs && t.jobs[j] == s.jobs[j]
  }

  lemma SameKeeps(s: State, t: State)
    requires CallsInv(s) && SameCalls(s, t)
    ensures CallsInv(t)
  {
    forall a ensures NotesTell(t.issued, a, Notes(t, a)) { assert Notes(t, a) == Notes(s, a); }
    forall j | 0 <= j < |t.issued| ensures WasNoted(t, j) {
      assert WasNoted(s, j) && Notes(t, t.issued[j].agent) == Notes(s, t.issued[j].agent);
    }
  }

  lemma NoteKeeps(s: State, a: Agent, n: Note)
    requires CallsInv(s) && Tells(s.issued, a, n)
    ensures CallsInv(Noted(s, a, n))
  {
    var t := Noted(s, a, n);
    forall b ensures NotesTell(t.issued, b, Notes(t, b)) {
      assert NotesTell(s.issued, b, Notes(s, b));
    }
    forall j | 0 <= j < |t.issued| ensures WasNoted(t, j) {
      assert WasNoted(s, j);
    }
  }

  /** One call, and its note when it carries something. */
  lemma IssueKeeps(s: State, a: Agent, generation: nat, call: Call)
    requires CallsInv(s)
    ensures var t, j := PushJob(s, a, generation, call), s.nextJob;
      match call {
        case Input(_, bytes) => CallsInv(Noted(t, a, SentInput(bytes, j)))
        case Create(_, size) => CallsInv(Noted(t, a, SentSize(size, j)))
        case Resize(_, size) => CallsInv(Noted(t, a, SentSize(size, j)))
        case _ => CallsInv(t)
      }
  {
    hide CallsInv, Notes;
    var j := s.nextJob;
    match call
    case Input(_, bytes) => NotedKeeps(s, a, generation, call, SentInput(bytes, j));
    case Create(_, size) => NotedKeeps(s, a, generation, call, SentSize(size, j));
    case Resize(_, size) => NotedKeeps(s, a, generation, call, SentSize(size, j));
    case _ => UnnotedKeeps(s, a, generation, call);
  }

  lemma UnnotedKeeps(s: State, a: Agent, generation: nat, call: Call)
    requires CallsInv(s) && (call.Attach? || call.Keepalive?)
    ensures CallsInv(PushJob(s, a, generation, call))
  {
    var t := PushJob(s, a, generation, call);
    forall b ensures NotesTell(t.issued, b, Notes(t, b)) {
      assert Notes(t, b) == Notes(s, b) && NotesTell(s.issued, b, Notes(s, b));
    }
    forall k | 0 <= k < |t.issued| ensures WasNoted(t, k) {
      if k < |s.issued| { assert WasNoted(s, k) && Notes(t, s.issued[k].agent) == Notes(s, s.issued[k].agent); }
    }
  }

  lemma NotedKeeps(s: State, a: Agent, generation: nat, call: Call, n: Note)
    requires CallsInv(s)
    requires match call {
        case Input(_, bytes) => n == SentInput(bytes, s.nextJob)
        case Create(_, size) => n == SentSize(size, s.nextJob)
        case Resize(_, size) => n == SentSize(size, s.nextJob)
        case _ => false
      }
    ensures CallsInv(Noted(PushJob(s, a, generation, call), a, n))
  {
    hide Noted, PushJob;
    var t := Noted(PushJob(s, a, generation, call), a, n);
    Shape(s, a, generation, call, n);
    forall b ensures NotesTell(t.issued, b, Notes(t, b)) {
      assert NotesTell(s.issued, b, Notes(s, b));
    }
    forall k | 0 <= k < |t.issued| ensures WasNoted(t, k) {
      if k < |s.issued| {
        assert WasNoted(s, k);
      } else {
        assert Notes(t, a)[|Notes(s, a)|] == n;
      }
    }
  }

  lemma Shape(s: State, a: Agent, generation: nat, call: Call, n: Note)
    ensures var t := Noted(PushJob(s, a, generation, call), a, n);
      && t.issued == s.issued + [Job(s.epoch, a, generation, call)] && t.nextJob == s.nextJob + 1
      && t.jobs == s.jobs[s.nextJob := Job(s.epoch, a, generation, call)]
      && Notes(t, a) == Notes(s, a) + [n] && forall b :: b != a ==> Notes(t, b) == Notes(s, b)
  {
  }

  lemma CreateCalls(s: State, a: Agent)
    requires CallsInv(s)
    ensures CallsInv(CreateShell(s, a))
  {
    hide CallsInv, Noted, PushJob;
    var u := s.(generation := s.generation + 1);
    if a in s.shells {
      var sh := s.shells[a].(generation := u.generation, id := None, attached := false, inputBusy := false,
                             resizeBusy := false, resizePending := false);
      var v := SetStatus(Put(u, a, sh), a, Starting);
      SameKeeps(s, v);
      IssueKeeps(v, a, sh.generation, Create(sh.cwd, sh.size));
    } else {
      SameKeeps(s, u);
    }
  }

  lemma AttachCalls(s: State, a: Agent)
    requires CallsInv(s)
    ensures CallsInv(AttachShell(s, a))
  {
    hide CallsInv, Noted, PushJob;
    if a in s.shells && s.shells[a].id.Some? {
      var sh := s.shells[a].(attached := true);
      var v := SetStatus(Put(s, a, sh), a, Attaching);
      SameKeeps(s, v);
      UnnotedKeeps(v, a, sh.generation, Attach(sh.id.value));
    }
  }

  lemma FlushCalls(s: State, a: Agent)
    requires CallsInv(s)
    ensures CallsInv(FlushInput(s, a)) && CallsInv(FlushResize(s, a))
  {
    hide CallsInv, Noted, PushJob;
    if a in s.shells && s.shells[a].id.Some? {
      var sh := s.shells[a];
      var v := Put(s, a, sh.(inputBusy := true, input := []));
      var w := Put(s, a, sh.(resizeBusy := true, resizePending := false));
      SameKeeps(s, v);
      SameKeeps(s, w);
      IssueKeeps(v, a, sh.generation, Input(sh.id.value, sh.input));
      IssueKeeps(w, a, sh.generation, Resize(sh.id.value, sh.size));
    }
  }

  lemma EndedCalls(s: State, a: Agent)
    requires CallsInv(s)
    ensures CallsInv(ShellEnded(s, a))
  {
    hide CallsInv, Noted;
    if a in s.shells {
      var v := Put(s, a, s.shells[a].(id := None, attached := false, input := []));
      SameKeeps(s, v);
      NoteKeeps(v, a, Cleared);
      SameKeeps(Noted(v, a, Cleared), SetStatus(Noted(v, a, Cleared), a, Exited));
    } else {
      SameKeeps(s, SetStatus(s, a, Exited));
    }
  }

  lemma {:induction false} AdoptCalls(s: State, known: seq<(Agent, Id)>)
    requires CallsInv(s)
    ensures CallsInv(Adopt(s, known))
    decreases |known|
  {
    hide CallsInv, Noted;
    if known != [] {
      var (a, id) := known[0];
      if a !in s.shells && id != "" {
        var sh := NewShell("", DEFAULT_SIZE).(id := Some(id), generation := s.generation + 1);
        var v := SetStatus(Put(s.(generation := s.generation + 1), a, sh), a, Detached);
        SameKeeps(s, v);
        NoteKeeps(v, a, Adopted);
      }
      AdoptCalls(AdoptOne(s, a, id), known[1..]);
    }
  }

  lemma OpenCalls(s: State, a: Agent, cwd: string, size: Size)
    requires CallsInv(s)
    ensures CallsInv(Open(s, a, cwd, size))
  {
    hide CallsInv, AttachShell, CreateShell, FlushResize, Opened;
    var sh := Opened(if a in s.shells then s.shells[a] else NewShell(cwd, size), cwd, size);
    var t := Put(s, a, sh);
    SameKeeps(s, t);
    SameKeeps(s, SetStatus(t, a, Failed));
    AttachCalls(t, a);
    CreateCalls(t, a);
    FlushCalls(if sh.id.Some? then (if sh.attached then t else AttachShell(t, a)) else CreateShell(t, a), a);
  }

  lemma TypedCalls(s: State, a: Agent, bytes: seq<Byte>)
    requires CallsInv(s)
    ensures CallsInv(TypeInput(s, a, bytes))
  {
    hide CallsInv, FlushInput, Noted;
    SameKeeps(s, SetStatus(s, a, Starting));
    if a in s.shells {
      var v := Put(s, a, s.shells[a].(input := s.shells[a].input + bytes));
      SameKeeps(s, v);
      NoteKeeps(v, a, Accepted(bytes));
      FlushCalls(Noted(v, a, Accepted(bytes)), a);
    }
  }

  lemma RestartCalls(s: State, a: Agent, cwd: string, size: Size)
    requires CallsInv(s)
    ensures CallsInv(Restart(s, a, cwd, size))
  {
    hide CallsInv, CreateShell, Open, Noted;
    OpenCalls(s, a, cwd, size);
    if a in s.shells {
      var sh := s.shells[a].(id := None, cwd := cwd, size := size, wanted := true, attached := false, input := []);
      var v := Put(s, a, sh);
      SameKeeps(s, v);
      NoteKeeps(v, a, Cleared);
      CreateCalls(Noted(v, a, Cleared), a);
    }
  }

  lemma TouchCalls(s: State, a: Agent, status: Status)
    requires CallsInv(s)
    ensures CallsInv(Touched(s, a)) && CallsInv(SetStatus(s, a, status))
  {
    SameKeeps(s, SetStatus(s, a, Starting));
    SameKeeps(s, SetStatus(s, a, status));
  }

  lemma DoneCalls(s: State, a: Agent, generation: nat, answer: Answer)
    requires CallsInv(s)
    ensures CallsInv(TerminalDone(s, a, generation, answer))
  {
    hide CallsInv, AttachShell, CreateShell, FlushInput, FlushResize, ShellEnded, Touched, SetStatus;
    if a in s.shells && s.shells[a].generation == generation {
      AttachCalls(s, a);
      match answer
      case Created(id) => CreatedCalls(s, a, id);
      case InputDone(ok) =>
        var v := Put(s, a, s.shells[a].(inputBusy := false));
        SameKeeps(s, v);
        TouchCalls(v, a, Starting);
        FlushCalls(if ok then v else Touched(v, a), a);
      case Resized =>
        var v := Put(s, a, s.shells[a].(resizeBusy := false));
        SameKeeps(s, v);
        FlushCalls(v, a);
      case LeaseLapsed =>
      case LeaseHeld =>
      case _ => AttachedCalls(s, a, answer);
    }
  }

  lemma CreatedCalls(s: State, a: Agent, id: Option<Id>)
    requires CallsInv(s) && a in s.shells
    ensures CallsInv(DoneCreated(s, a, id))
  {
    hide CallsInv, AttachShell, FlushInput;
    var v := Put(s, a, s.shells[a].(id := id));
    SameKeeps(s, v);
    TouchCalls(s, a, Failed);
    TouchCalls(v, a, Starting);
    var u := Touched(v, a);
    AttachCalls(u, a);
    TouchCalls(u, a, Detached);
    FlushCalls(if u.shells[a].wanted then AttachShell(u, a) else SetStatus(u, a, Detached), a);
  }

  lemma AttachedCalls(s: State, a: Agent, answer: Answer)
    requires CallsInv(s) && a in s.shells
    ensures CallsInv(DoneAttach(s, a, answer))
  {
    hide CallsInv, CreateShell, FlushResize, ShellEnded;
    TouchCalls(s, a, Starting);
    var u := Touched(s, a);
    TouchCalls(u, a, Live);
    FlushCalls(if u.statuses[a] == Attaching then SetStatus(u, a, Live) else u, a);
    var v := Put(s, a, s.shells[a].(attached := false));
    SameKeeps(s, v);
    TouchCalls(v, a, Failed);
    CreateCalls(v, a);
    EndedCalls(v, a);
  }

  lemma {:induction false} ReopenCalls(s: State, agents: seq<Agent>)
    requires CallsInv(s)
    ensures CallsInv(ReopenAll(s, agents))
    decreases |agents|
  {
    hide CallsInv, AttachShell, CreateShell;
    if agents != [] {
      AttachCalls(s, agents[0]);
      CreateCalls(s, agents[0]);
      ReopenCalls(Reopen(s, agents[0]), agents[1..]);
    }
  }

  lemma LostCalls(s: State)
    requires CallsInv(s)
    ensures CallsInv(Disconnected(s))
  {
    hide CutAll, Wanted, MarkedLost;
    var t := Disconnected(s);
    forall a ensures NotesTell(t.issued, a, Notes(t, a)) {
      assert NotesTell(s.issued, a, Notes(s, a));
      assert Notes(t, a) == Notes(s, a) || Notes(t, a) == Notes(s, a) + [Cleared];
    }
    forall j | 0 <= j < |t.issued| ensures WasNoted(t, j) {
      var a := t.issued[j].agent;
      assert WasNoted(s, j) && (Notes(t, a) == Notes(s, a) || Notes(t, a) == Notes(s, a) + [Cleared]);
    }
  }

  lemma StepCalls(s: State, step: Step)
    requires CallsInv(s) && Enabled(s, step)
    ensures CallsInv(Next(s, step))
  {
    hide CallsInv, Open, TypeInput, Restart, TerminalDone, ReopenAll, ShellEnded, AttachShell, FlushResize,
      Disconnected, Adopt, PushJob;
    match step
    case AdoptStep(known) => AdoptCalls(s, known);
    case OpenStep(a, cwd, size) => OpenCalls(s, a, cwd, size);
    case HideStep(a) => SameKeeps(s, Hide(s, a));
    case InputStep(a, bytes) => TypedCalls(s, a, bytes);
    case ResizeStep(a, size) =>
      if a in s.shells {
        var v := Put(s, a, s.shells[a].(size := size, resizePending := true));
        SameKeeps(s, v);
        FlushCalls(v, a);
      }
    case RestartStep(a, cwd, size) => RestartCalls(s, a, cwd, size);
    case OutputStep(a, kept) =>
      AttachCalls(s, a);
      TouchCalls(s, a, Live);
      TouchCalls(s, a, Starting);
    case SignalStep(a, exited) =>
      EndedCalls(s, a);
      AttachCalls(s, a);
    case CompleteStep(j, answer) =>
      SameKeeps(s, Without(s, j));
      DoneCalls(Without(s, j), s.jobs[j].agent, s.jobs[j].generation, answer);
    case KeepAliveStep(a) => UnnotedKeeps(s, a, s.shells[a].generation, Keepalive(s.shells[a].id.value));
    case ConnectedStep(agents) =>
      var v := s.(epoch := s.epoch + 1, connected := true);
      SameKeeps(s, v);
      ReopenCalls(v, agents);
    case DisconnectedStep => LostCalls(s);
  }

  lemma {:induction false} RunCalls(s: State, steps: seq<Step>)
    requires CallsInv(s) && Exec(s, steps).Some?
    ensures CallsInv(Exec(s, steps).value)
    decreases |steps|
  {
    hide CallsInv, Next, Enabled;
    if steps != [] {
      StepCalls(s, steps[0]);
      RunCalls(Next(s, steps[0]), steps[1..]);
    }
  }

  /** The bytes of the agent's input calls since the buffer was last cleared, read off the calls. */
  function CalledBytes(issued: seq<Job>, notes: seq<Note>): seq<Byte> {
    if notes == [] then []
    else
      var n, before := notes[|notes| - 1], notes[..|notes| - 1];
      if n.Cleared? then []
      else CalledBytes(issued, before) + (if n.SentInput? then BytesOf(issued, n.job) else [])
  }

  function BytesOf(issued: seq<Job>, j: nat): seq<Byte> {
    if j < |issued| && issued[j].call.Input? then issued[j].call.bytes else []
  }

  lemma {:induction false} BytesAreCalled(issued: seq<Job>, a: Agent, notes: seq<Note>)
    requires NotesTell(issued, a, notes)
    ensures CalledBytes(issued, notes) == IssuedBytes(notes)
    decreases |notes|
  {
    if notes != [] {
      assert Tells(issued, a, notes[|notes| - 1]);
      BytesAreCalled(issued, a, notes[..|notes| - 1]);
    }
  }
}
