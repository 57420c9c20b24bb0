/** What each piece of the shells' code keeps: the bytes accepted, issued and buffered, one live call for each
    busy flag, and the size the hub was last told; and which calls are still waited for, through generations,
    restarts and lost connections (controller.rs). */
module ShellProof {
  import opened Wrappers
  import opened Shells

  // ---- reading the notes -------------------------------------------------

  /** The bytes taken from the keyboard since the buffer was last cleared. */
  function AcceptedBytes(notes: seq<Note>): seq<Byte> {
    if notes == [] then []
    else
      var n, before := notes[|notes| - 1], notes[..|notes| - 1];
      if n.Cleared? then [] else AcceptedBytes(before) + if n.Accepted? then n.bytes else []
  }

  /** The bytes handed to the hub since then, call by call. */
  function IssuedBytes(notes: seq<Note>): seq<Byte> {
    if notes == [] then []
    else
      var n, before := notes[|notes| - 1], notes[..|notes| - 1];
      if n.Cleared? then [] else IssuedBytes(before) + if n.SentInput? then n.bytes else []
  }

  datatype Told = Nothing | Unknown | Told(size: Size)

  /** The size the hub was last told; unknown for a shell of an earlier run. */
  function LastTold(notes: seq<Note>): Told {
    if notes == [] then Nothing
    else
      var n, before := notes[|notes| - 1], notes[..|notes| - 1];
      match n
      case SentSize(size, _) => Told(size)
      case Adopted => Unknown
      case _ => LastTold(before)
  }

  function LastInput(notes: seq<Note>): nat {
    if notes == [] then 0
    else
      var n := notes[|notes| - 1];
      if n.SentInput? then n.job else LastInput(notes[..|notes| - 1])
  }

  function LastSizing(notes: seq<Note>): nat {
    if notes == [] then 0
    else
      var n := notes[|notes| - 1];
      if n.SentSize? then n.job else LastSizing(notes[..|notes| - 1])
  }

  lemma OneMore(notes: seq<Note>, n: Note)
    ensures AcceptedBytes(notes + [n]) ==
      if n.Cleared? then [] else AcceptedBytes(notes) + if n.Accepted? then n.bytes else []
    ensures IssuedBytes(notes + [n]) ==
      if n.Cleared? then [] else IssuedBytes(notes) + if n.SentInput? then n.bytes else []
    ensures LastTold(notes + [n]) ==
      if n.SentSize? then Told(n.size) else if n.Adopted? then Unknown else LastTold(notes)
    ensures LastInput(notes + [n]) == if n.SentInput? then n.job else LastInput(notes)
    ensures LastSizing(notes + [n]) == if n.SentSize? then n.job else LastSizing(notes)
  {
    assert (notes + [n])[..|notes|] == notes;
  }

  // ---- the invariant -----------------------------------------------------

  /** Issued on this connection, for the agent's present shell. */
  predicate IsLive(s: State, job: Job) {
    job.epoch == s.epoch && job.agent in s.shells && job.generation == s.shells[job.agent].generation
  }

  predicate BytesKept(sh: Shell, notes: seq<Note>) {
    |sh.input| <= MAX_TERMINAL_INPUT && AcceptedBytes(notes) == IssuedBytes(notes) + sh.input
  }

  /** A busy flag stands for one live call. */
  predicate BusyMeansOne(s: State, a: Agent)
    requires a in s.shells
  {
    var sh, input, sizing := s.shells[a], LastInput(Notes(s, a)), LastSizing(Notes(s, a));
    && (sh.inputBusy ==>
          && input in s.jobs && IsLive(s, s.jobs[input])
          && s.jobs[input].agent == a && s.jobs[input].call.Input?)
    && (sh.resizeBusy ==>
          && sizing in s.jobs && IsLive(s, s.jobs[sizing])
          && s.jobs[sizing].agent == a && s.jobs[sizing].call.Resize?)
  }

  predicate JobOk(s: State, j: nat)
    requires j in s.jobs && s.jobs[j].agent in s.shells
  {
    var job := s.jobs[j];
    && job.epoch <= s.epoch && (!s.connected ==> job.epoch < s.epoch)
    && job.generation <= s.shells[job.agent].generation
    && (IsLive(s, job) && job.call.Input? ==> s.shells[job.agent].inputBusy && j == LastInput(Notes(s, job.agent)))
    && (IsLive(s, job) && job.call.Resize? ==> s.shells[job.agent].resizeBusy && j == LastSizing(Notes(s, job.agent)))
  }

  predicate ShellOk(s: State, a: Agent)
    requires a in s.shells
  {
    && s.shells[a].generation <= s.generation && BytesKept(s.shells[a], Notes(s, a)) && BusyMeansOne(s, a)
    && forall j {:trigger JobOk(s, j)} :: j in s.jobs && s.jobs[j].agent == a ==> JobOk(s, j)
  }

  predicate Core(s: State) {
    && (forall a {:trigger ShellOk(s, a)} :: a in s.shells ==> ShellOk(s, a))
    && (forall a :: a in s.notes ==> a in s.shells)
    && (forall j :: j in s.jobs ==> j < s.nextJob && s.jobs[j].agent in s.shells)
  }

  predicate ToldSize(sh: Shell, notes: seq<Note>) {
    LastTold(notes) != Nothing && (sh.resizePending || LastTold(notes) == Unknown || LastTold(notes) == Told(sh.size))
  }

  /** A shell that exists, or is being created for this generation, was told its size. */
  predicate SizeOk(s: State, a: Agent)
    requires a in s.shells
  {
    && (s.shells[a].id.Some? ==> ToldSize(s.shells[a], Notes(s, a)))
    && forall j :: j in s.jobs && s.jobs[j].agent == a && IsLive(s, s.jobs[j]) && s.jobs[j].call.Create? ==>
      ToldSize(s.shells[a], Notes(s, a))
  }

  predicate Sizes(s: State, but: set<Agent>) {
    forall a {:trigger SizeOk(s, a)} :: a in s.shells && a !in but ==> SizeOk(s, a)
  }

  predicate Inv(s: State) {
    Core(s) && Sizes(s, {})
  }

  // ---- one agent's change ------------------------------------------------

  /** Only this agent's shell and notes change, and at most one call is issued for it. */
  ghost predicate Changes(s: State, t: State, a: Agent, sh: Shell, notes: seq<Note>, call: Option<Call>) {
    && t.epoch == s.epoch && t.connected == s.connected && t.generation >= s.generation
    && t.shells == s.shells[a := sh]
    && Notes(t, a) == notes && t.notes.Keys <= s.notes.Keys + {a} && (forall b :: b != a ==> Notes(t, b) == Notes(s, b))
    && (if call.None? then t.jobs == s.jobs && t.nextJob == s.nextJob
        else t.jobs == s.jobs[s.nextJob := Job(s.epoch, a, sh.generation, call.value)] && t.nextJob == s.nextJob + 1)
  }

  /** The flag of a kind of call: kept with its call, or raised with a new one. */
  predicate FlagKept(was: bool, lastWas: nat, now: bool, last: nat, issued: bool, next: nat) {
    now == (was || issued) && (if issued then !was && last == next else last == lastWas)
  }

  predicate SameFlags(s: State, a: Agent, sh: Shell, notes: seq<Note>, call: Option<Call>)
    requires a in s.shells
  {
    var was, before := s.shells[a], Notes(s, a);
    && sh.generation == was.generation && !(call.Some? && call.value.Create?)
    && FlagKept(was.inputBusy, LastInput(before), sh.inputBusy, LastInput(notes),
                call.Some? && call.value.Input?, s.nextJob)
    && FlagKept(was.resizeBusy, LastSizing(before), sh.resizeBusy, LastSizing(notes),
                call.Some? && call.value.Resize?, s.nextJob)
  }

  predicate SameShell(s: State, a: Agent, sh: Shell, notes: seq<Note>, call: Option<Call>)
    requires a in s.shells
  {
    && SameFlags(s, a, sh, notes, call)
    && (ToldSize(s.shells[a], Notes(s, a)) ==> ToldSize(sh, notes))
    && (sh.id.Some? ==> ToldSize(sh, notes))
  }

  predicate FreshShell(s: State, t: State, sh: Shell, notes: seq<Note>, call: Option<Call>) {
    && s.generation < sh.generation <= t.generation && !sh.inputBusy && !sh.resizeBusy
    && (call.None? || call.value.Create?) && (sh.id.Some? || call.Some? ==> ToldSize(sh, notes))
  }

  lemma NewJobs(s: State, t: State, a: Agent, sh: Shell, notes: seq<Note>, call: Option<Call>)
    requires Core(s) && Changes(s, t, a, sh, notes, call)
    ensures s.nextJob !in s.jobs && Notes(t, a) == notes
    ensures forall b :: b in s.shells && b != a ==> t.shells[b] == s.shells[b] && Notes(t, b) == Notes(s, b)
    ensures forall j :: j in t.jobs ==> j < t.nextJob && t.jobs[j].agent in t.shells
    ensures forall j :: j in t.jobs && t.jobs[j].agent != a ==> j in s.jobs && t.jobs[j] == s.jobs[j]
  {
  }

  lemma OtherKept(s: State, t: State, a: Agent, sh: Shell, notes: seq<Note>, call: Option<Call>, b: Agent)
    requires Core(s) && Changes(s, t, a, sh, notes, call) && b in s.shells && b != a
    ensures ShellOk(t, b) && (SizeOk(s, b) ==> SizeOk(t, b))
  {
    hide BytesKept, LastTold, LastInput, LastSizing, ToldSize;
    NewJobs(s, t, a, sh, notes, call);
    assert ShellOk(s, b);
    forall j | j in t.jobs && t.jobs[j].agent == b ensures JobOk(t, j) {
      assert JobOk(s, j);
    }
  }

  lemma SameKept(s: State, t: State, a: Agent, sh: Shell, notes: seq<Note>, call: Option<Call>)
    requires Core(s) && Changes(s, t, a, sh, notes, call) && a in s.shells && (call.Some? ==> s.connected)
    requires SameFlags(s, a, sh, notes, call) && BytesKept(sh, notes)
    ensures ShellOk(t, a)
  {
    hide BytesKept, LastTold, LastInput, LastSizing, ToldSize, Notes;
    NewJobs(s, t, a, sh, notes, call);
    assert ShellOk(s, a);
    forall j | j in t.jobs && t.jobs[j].agent == a ensures JobOk(t, j) {
      if j in s.jobs { assert JobOk(s, j); }
    }
  }

  lemma SameSizeKept(s: State, t: State, a: Agent, sh: Shell, notes: seq<Note>, call: Option<Call>)
    requires Core(s) && Changes(s, t, a, sh, notes, call) && a in s.shells && SizeOk(s, a)
    requires SameShell(s, a, sh, notes, call)
    ensures SizeOk(t, a)
  {
    hide BytesKept, LastTold, LastInput, LastSizing, ToldSize, Notes, BusyMeansOne, JobOk;
    NewJobs(s, t, a, sh, notes, call);
  }

  lemma FreshKept(s: State, t: State, a: Agent, sh: Shell, notes: seq<Note>, call: Option<Call>)
    requires Core(s) && Changes(s, t, a, sh, notes, call) && (call.Some? ==> s.connected)
    requires FreshShell(s, t, sh, notes, call) && BytesKept(sh, notes)
    ensures ShellOk(t, a) && SizeOk(t, a)
  {
    hide BytesKept, LastTold, LastInput, LastSizing, ToldSize, Notes;
    NewJobs(s, t, a, sh, notes, call);
    forall j | j in t.jobs && t.jobs[j].agent == a
      ensures JobOk(t, j) && (IsLive(t, t.jobs[j]) ==> j == s.nextJob)
    {
      if j in s.jobs { assert ShellOk(s, a) && JobOk(s, j); }
    }
  }

  lemma ChangeKeeps(s: State, t: State, a: Agent, sh: Shell, notes: seq<Note>, call: Option<Call>)
    requires Core(s) && Sizes(s, {a}) && Changes(s, t, a, sh, notes, call) && (call.Some? ==> s.connected)
    requires BytesKept(sh, notes)
    requires FreshShell(s, t, sh, notes, call) || (a in s.shells && SizeOk(s, a) && SameShell(s, a, sh, notes, call))
    ensures Inv(t)
  {
    hide BytesKept, LastTold, LastInput, LastSizing, ToldSize, Notes, ShellOk, SizeOk, SameFlags, FreshShell;
    NewJobs(s, t, a, sh, notes, call);
    if FreshShell(s, t, sh, notes, call) {
      FreshKept(s, t, a, sh, notes, call);
    } else {
      SameKept(s, t, a, sh, notes, call);
      SameSizeKept(s, t, a, sh, notes, call);
    }
    forall b | b in t.shells ensures ShellOk(t, b) && SizeOk(t, b) {
      if b != a { OtherKept(s, t, a, sh, notes, call, b); }
    }
  }

  // ---- the pieces keep it ------------------------------------------------

  lemma Known(s: State, a: Agent)
    requires Inv(s) && a in s.shells
    ensures BytesKept(s.shells[a], Notes(s, a)) && SizeOk(s, a) && Core(s) && Sizes(s, {a})
    ensures s.shells[a].id.Some? ==> ToldSize(s.shells[a], Notes(s, a))
  {
    assert ShellOk(s, a);
  }

  lemma CoreBytes(s: State, a: Agent)
    requires Core(s) && a in s.shells
    ensures BytesKept(s.shells[a], Notes(s, a))
  {
    assert ShellOk(s, a);
  }

  lemma CreateKeeps(s: State, a: Agent)
    requires Core(s) && Sizes(s, {a}) && s.connected && a in s.shells
    ensures Inv(CreateShell(s, a))
  {
    hide AcceptedBytes, IssuedBytes, LastTold, LastInput, LastSizing, Core, Sizes;
    var t := CreateShell(s, a);
    var sh, n := t.shells[a], SentSize(s.shells[a].size, s.nextJob);
    assert BytesKept(s.shells[a], Notes(s, a)) by { CoreBytes(s, a); }
    OneMore(Notes(s, a), n);
    ChangeKeeps(s, t, a, sh, Notes(s, a) + [n], Some(Create(sh.cwd, sh.size)));
  }

  /** A new generation may be started for an agent whose size the hub need not have been told, or for
      one that is not known. */
  predicate Creatable(s: State, a: Agent) {
    s.connected && Core(s) && Sizes(s, {a})
  }

  lemma CreatableKeeps(s: State, a: Agent)
    requires Creatable(s, a)
    ensures Inv(CreateShell(s, a))
  {
    hide CreateShell, ShellOk, SizeOk;
    if a in s.shells {
      CreateKeeps(s, a);
    } else {
      var t := s.(generation := s.generation + 1);
      assert CreateShell(s, a) == t by { NoShell(s, a); }
      forall b | b in t.shells ensures ShellOk(t, b) && SizeOk(t, b) {
        assert SizeOk(s, b) && Notes(t, b) == Notes(s, b);
        Unmoved(s, t, b);
      }
    }
  }

  lemma NoShell(s: State, a: Agent)
    requires a !in s.shells
    ensures CreateShell(s, a) == s.(generation := s.generation + 1)
  {
  }

  lemma AttachKeeps(s: State, a: Agent)
    requires Inv(s) && s.connected
    ensures Inv(AttachShell(s, a))
  {
    hide AcceptedBytes, IssuedBytes, LastTold, LastInput, LastSizing, Core, Sizes, SizeOk;
    var t := AttachShell(s, a);
    if a in s.shells && s.shells[a].id.Some? {
      var sh := t.shells[a];
      Known(s, a);
      ChangeKeeps(s, t, a, sh, Notes(s, a), Some(Attach(sh.id.value)));
    }
  }

  lemma FlushInputKeeps(s: State, a: Agent)
    requires Inv(s)
    ensures Inv(FlushInput(s, a))
  {
    hide AcceptedBytes, IssuedBytes, LastTold, LastInput, LastSizing, Core, Sizes, SizeOk, Inv;
    var t := FlushInput(s, a);
    if t != s {
      var sh := s.shells[a];
      var n := SentInput(sh.input, s.nextJob);
      Known(s, a);
      OneMore(Notes(s, a), n);
      ChangeKeeps(s, t, a, t.shells[a], Notes(s, a) + [n], Some(Input(sh.id.value, sh.input)));
    }
  }

  lemma FlushResizeKeeps(s: State, a: Agent)
    requires Inv(s)
    ensures Inv(FlushResize(s, a))
  {
    hide AcceptedBytes, IssuedBytes, LastTold, LastInput, LastSizing, Core, Sizes, SizeOk, Inv;
    var t := FlushResize(s, a);
    if t != s {
      var sh := s.shells[a];
      var n := SentSize(sh.size, s.nextJob);
      Known(s, a);
      OneMore(Notes(s, a), n);
      ChangeKeeps(s, t, a, t.shells[a], Notes(s, a) + [n], Some(Resize(sh.id.value, sh.size)));
    }
  }

  lemma EndedKeeps(s: State, a: Agent)
    requires Inv(s)
    ensures Inv(ShellEnded(s, a))
  {
    hide AcceptedBytes, IssuedBytes, LastTold, LastInput, LastSizing, Core, Sizes, SizeOk;
    var t := ShellEnded(s, a);
    if a in s.shells {
      Known(s, a);
      OneMore(Notes(s, a), Cleared);
      ChangeKeeps(s, t, a, t.shells[a], Notes(s, a) + [Cleared], None);
    } else {
      StatusKeeps(s, a, Exited);
    }
  }

  lemma StatusKeeps(s: State, a: Agent, status: Status)
    ensures Core(SetStatus(s, a, status)) <==> Core(s)
    ensures forall but: set<Agent> :: Sizes(SetStatus(s, a, status), but) <==> Sizes(s, but)
  {
    hide BytesKept, LastTold, LastInput, LastSizing, ToldSize;
    var t := SetStatus(s, a, status);
    forall b | b in s.shells ensures (ShellOk(t, b) <==> ShellOk(s, b)) && (SizeOk(t, b) <==> SizeOk(s, b)) {
      assert Notes(t, b) == Notes(s, b);
      assert forall j :: j in s.jobs && s.jobs[j].agent in s.shells ==>
        (IsLive(t, s.jobs[j]) <==> IsLive(s, s.jobs[j]));
      assert forall j :: j in s.jobs && s.jobs[j].agent == b ==> (JobOk(t, j) <==> JobOk(s, j));
    }
  }

  lemma PutKeeps(s: State, t: State, a: Agent)
    requires Inv(s) && a in s.shells && a in t.shells && t == Put(s, a, t.shells[a])
    requires t.shells[a].generation == s.shells[a].generation && t.shells[a].input == s.shells[a].input
    requires t.shells[a].inputBusy == s.shells[a].inputBusy && t.shells[a].resizeBusy == s.shells[a].resizeBusy
    requires ToldSize(s.shells[a], Notes(s, a)) ==> ToldSize(t.shells[a], Notes(s, a))
    requires t.shells[a].id.Some? ==> ToldSize(t.shells[a], Notes(s, a))
    ensures Inv(t)
  {
    hide AcceptedBytes, IssuedBytes, LastTold, LastInput, LastSizing, Core, Sizes, SizeOk, Inv, ToldSize;
    Known(s, a);
    ChangeKeeps(s, t, a, t.shells[a], Notes(s, a), None);
  }

  // ---- commands ----------------------------------------------------------

  lemma AdoptOneKeeps(s: State, a: Agent, id: Id)
    requires Inv(s)
    ensures Inv(AdoptOne(s, a, id))
  {
    hide Core, LastInput, LastSizing;
    if a !in s.shells && id != "" {
      var t := AdoptOne(s, a, id);
      NoNotes(s, a);
      OneMore([], Adopted);
      assert [] + [Adopted] == [Adopted];
      ChangeKeeps(s, t, a, t.shells[a], [Adopted], None);
    }
  }

  lemma NoNotes(s: State, a: Agent)
    requires Core(s) && a !in s.shells
    ensures Notes(s, a) == [] && a !in s.notes
    ensures forall j :: j in s.jobs ==> s.jobs[j].agent != a
  {
  }

  lemma {:induction false} AdoptKeeps(s: State, known: seq<(Agent, Id)>)
    requires Inv(s)
    ensures Inv(Adopt(s, known))
    decreases |known|
  {
    hide Inv, AdoptOne;
    if known != [] {
      AdoptOneKeeps(s, known[0].0, known[0].1);
      AdoptKeeps(AdoptOne(s, known[0].0, known[0].1), known[1..]);
    }
  }

  /** A new entry, with no shell yet. */
  lemma EntryKeeps(s: State, a: Agent, sh: Shell)
    requires Inv(s) && a !in s.shells && sh.id.None? && sh.generation == 0
    requires sh.input == [] && !sh.inputBusy && !sh.resizeBusy
    ensures Inv(Put(s, a, sh))
  {
    hide LastTold, LastInput, LastSizing;
    var t := Put(s, a, sh);
    NoNotes(s, a);
    forall b | b in t.shells ensures ShellOk(t, b) && SizeOk(t, b) {
      assert Notes(t, b) == Notes(s, b);
      if b != a {
        Unmoved(s, t, b);
      }
    }
  }

  lemma Unmoved(s: State, t: State, b: Agent)
    requires Core(s) && b in s.shells && SizeOk(s, b)
    requires b in t.shells && t.shells[b] == s.shells[b] && Notes(t, b) == Notes(s, b)
    requires t.epoch == s.epoch && t.connected == s.connected && t.generation >= s.generation
    requires forall j :: j in s.jobs && s.jobs[j].agent == b ==> j in t.jobs && t.jobs[j] == s.jobs[j]
    requires forall j :: j in t.jobs && t.jobs[j].agent == b ==> j in s.jobs && t.jobs[j] == s.jobs[j]
    ensures ShellOk(t, b) && SizeOk(t, b)
  {
    hide BytesKept, LastTold, LastInput, LastSizing, ToldSize, Notes;
    assert ShellOk(s, b);
    forall j | j in t.jobs && t.jobs[j].agent == b ensures JobOk(t, j) {
      assert JobOk(s, j);
    }
  }

  /** A shell given up or not there yet may change size freely: nothing was told to it. */
  lemma LooseKeeps(s: State, t: State, a: Agent, sh: Shell, notes: seq<Note>)
    requires Inv(s) && a in s.shells && Changes(s, t, a, sh, notes, None)
    requires SameFlags(s, a, sh, notes, None) && BytesKept(sh, notes) && sh.id.None?
    ensures Core(t) && Sizes(t, {a})
    ensures !s.connected ==> Inv(t)
  {
    hide BytesKept, LastTold, LastInput, LastSizing, ToldSize, Notes, SameFlags;
    Known(s, a);
    NewJobs(s, t, a, sh, notes, None);
    SameKept(s, t, a, sh, notes, None);
    forall b | b in t.shells && b != a ensures ShellOk(t, b) && SizeOk(t, b) {
      OtherKept(s, t, a, sh, notes, None, b);
    }
    if !s.connected {
      forall j | j in t.jobs && t.jobs[j].agent == a ensures !IsLive(t, t.jobs[j]) {
        assert JobOk(t, j);
      }
    }
  }

  lemma OpenKeeps(s: State, a: Agent, cwd: string, size: Size)
    requires Inv(s)
    ensures Inv(Open(s, a, cwd, size))
  {
    hide Inv, Core, Sizes, AttachShell, CreateShell, FlushResize, LastTold, LastInput, LastSizing;
    var sh := Opened(if a in s.shells then s.shells[a] else NewShell(cwd, size), cwd, size);
    var t := Put(s, a, sh);
    OpenedEntry(s, a, cwd, size);
    if !s.connected {
      StatusKeeps(t, a, Failed);
      InvParts(t);
      InvParts(SetStatus(t, a, Failed));
    } else if sh.id.Some? {
      if !sh.attached { AttachKeeps(t, a); }
      FlushResizeKeeps(if sh.attached then t else AttachShell(t, a), a);
    } else {
      CreateKeeps(t, a);
      FlushResizeKeeps(CreateShell(t, a), a);
    }
  }

  lemma InvParts(s: State)
    ensures Inv(s) <==> Core(s) && Sizes(s, {})
    ensures Inv(s) ==> forall but: set<Agent> :: Sizes(s, but)
  {
  }

  lemma OpenedEntry(s: State, a: Agent, cwd: string, size: Size)
    requires Inv(s)
    ensures var sh := Opened(if a in s.shells then s.shells[a] else NewShell(cwd, size), cwd, size);
      var t := Put(s, a, sh);
      if sh.id.Some? || !s.connected then Inv(t) else Core(t) && Sizes(t, {a})
  {
    hide Inv, Core, Sizes, LastInput, LastSizing, AcceptedBytes, IssuedBytes, LastTold, SizeOk;
    var sh := Opened(if a in s.shells then s.shells[a] else NewShell(cwd, size), cwd, size);
    var t := Put(s, a, sh);
    if a !in s.shells {
      EntryKeeps(s, a, sh);
      InvParts(t);
    } else {
      Known(s, a);
      if sh.id.Some? {
        PutKeeps(s, t, a);
      } else {
        LooseKeeps(s, t, a, sh, Notes(s, a));
      }
    }
  }

  lemma RestartKeeps(s: State, a: Agent, cwd: string, size: Size)
    requires Inv(s)
    ensures Inv(Restart(s, a, cwd, size))
  {
    hide Inv, Core, Sizes, LastInput, LastSizing, AcceptedBytes, IssuedBytes, LastTold, SizeOk, CreateShell, Open;
    if a !in s.shells {
      OpenKeeps(s, a, cwd, size);
    } else {
      RestartedEntry(s, a, cwd, size);
      if s.connected { CreateKeeps(Restarted(s, a, cwd, size), a); }
    }
  }

  /** The agent's entry when its shell is given up for a new one. */
  function Restarted(s: State, a: Agent, cwd: string, size: Size): State
    requires a in s.shells
  {
    var sh := s.shells[a].(id := None, cwd := cwd, size := size, wanted := true, attached := false, input := []);
    Noted(Put(s, a, sh), a, Cleared)
  }

  lemma RestartedEntry(s: State, a: Agent, cwd: string, size: Size)
    requires Inv(s) && a in s.shells
    ensures var t := Restarted(s, a, cwd, size); if s.connected then Creatable(t, a) else Inv(t)
  {
    hide Inv, Core, Sizes, LastInput, LastSizing, AcceptedBytes, IssuedBytes, LastTold, SizeOk;
    var t := Restarted(s, a, cwd, size);
    Known(s, a);
    OneMore(Notes(s, a), Cleared);
    LooseKeeps(s, t, a, t.shells[a], Notes(s, a) + [Cleared]);
  }

  lemma HideKeeps(s: State, a: Agent)
    requires Inv(s)
    ensures Inv(Hide(s, a))
  {
    hide Core, Sizes, SizeOk, LastInput, LastSizing, AcceptedBytes, IssuedBytes, LastTold;
    if a in s.shells {
      var t := Put(s, a, s.shells[a].(wanted := false, attached := false));
      Known(s, a);
      PutKeeps(s, t, a);
      StatusKeeps(t, a, Detached);
      StatusKeeps(t, a, Starting);
    }
  }

  /** The bytes join the buffer. */
  function Typed(s: State, a: Agent, bytes: seq<Byte>): State
    requires a in s.shells
  {
    Noted(Put(s, a, s.shells[a].(input := s.shells[a].input + bytes)), a, Accepted(bytes))
  }

  lemma TypedKeeps(s: State, a: Agent, bytes: seq<Byte>)
    requires Inv(s) && a in s.shells && |s.shells[a].input| + |bytes| <= MAX_TERMINAL_INPUT
    ensures Inv(Typed(s, a, bytes))
    ensures AcceptedBytes(Notes(Typed(s, a, bytes), a)) == AcceptedBytes(Notes(s, a)) + bytes
  {
    hide Core, Sizes, SizeOk, LastInput, LastSizing, AcceptedBytes, IssuedBytes, LastTold;
    var t := Typed(s, a, bytes);
    Known(s, a);
    OneMore(Notes(s, a), Accepted(bytes));
    ChangeKeeps(s, t, a, t.shells[a], Notes(s, a) + [Accepted(bytes)], None);
  }

  lemma InputKeeps(s: State, a: Agent, bytes: seq<Byte>)
    requires Inv(s)
    ensures Inv(TypeInput(s, a, bytes))
  {
    hide Core, Sizes, SizeOk, LastInput, LastSizing, AcceptedBytes, IssuedBytes, LastTold, FlushInput;
    if a in s.shells {
      var sh := s.shells[a];
      if |sh.input| + |bytes| > MAX_TERMINAL_INPUT {
        StatusKeeps(s, a, Starting);
      } else {
        TypedKeeps(s, a, bytes);
        FlushInputKeeps(Typed(s, a, bytes), a);
      }
    }
  }

  lemma ResizeKeeps(s: State, a: Agent, size: Size)
    requires Inv(s)
    ensures Inv(ResizeTo(s, a, size))
  {
    hide Core, Sizes, SizeOk, LastInput, LastSizing, AcceptedBytes, IssuedBytes, LastTold, FlushResize;
    if a in s.shells && s.shells[a].size != size {
      SizedKeeps(s, a, size);
      FlushResizeKeeps(Put(s, a, s.shells[a].(size := size, resizePending := true)), a);
    }
  }

  lemma SizedKeeps(s: State, a: Agent, size: Size)
    requires Inv(s) && a in s.shells
    ensures Inv(Put(s, a, s.shells[a].(size := size, resizePending := true)))
  {
    hide Core, Sizes, SizeOk, LastInput, LastSizing, AcceptedBytes, IssuedBytes, LastTold;
    var t := Put(s, a, s.shells[a].(size := size, resizePending := true));
    Known(s, a);
    PutKeeps(s, t, a);
  }

  // ---- what a shell promises ---------------------------------------------

  /** Bytes handed over call by call, then the buffer: all that was accepted, in order, and never too
      much held; with no resize pending the last size issued is the present one. */
  predicate ShellPromised(s: State, a: Agent)
    requires a in s.shells
  {
    && BytesKept(s.shells[a], Notes(s, a))
    && (s.shells[a].id.Some? ==> ToldSize(s.shells[a], Notes(s, a)))
  }

  predicate Promised(s: State) {
    forall a {:trigger ShellPromised(s, a)} :: a in s.shells ==> ShellPromised(s, a)
  }

  lemma InvPromises(s: State)
    requires Inv(s)
    ensures Promised(s)
  {
    hide BytesKept, ToldSize;
    forall a | a in s.shells ensures ShellPromised(s, a) {
      assert ShellOk(s, a) && SizeOk(s, a);
    }
  }
}
