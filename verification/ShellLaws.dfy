/** What each command, event and answer does to an agent's shell and its status, one at a time
    (controller.rs): opening, hiding, typing, restarting, and what connections do. */
module ShellLaws {
  import opened Wrappers
  import opened Shells
  import opened ShellProof
  import opened ShellCalls

  /** The call pushed last, when one was. */
  predicate Pushed(s: State, t: State, a: Agent, call: Call) {
    && t.nextJob > s.nextJob && (t.nextJob - 1) in t.jobs
    && t.jobs[t.nextJob - 1].agent == a && t.jobs[t.nextJob - 1].call == call && t.jobs[t.nextJob - 1].epoch == t.epoch
  }

  predicate NoCall(s: State, t: State) {
    t.jobs == s.jobs && t.nextJob == s.nextJob
  }

  predicate Status(s: State, a: Agent, status: Status) {
    a in s.statuses && s.statuses[a] == status
  }

  // ---- commands ----------------------------------------------------------

  lemma NoteAdds(s: State, a: Agent, note: Note)
    requires !note.Cleared?
    ensures AcceptedBytes(Notes(Noted(s, a, note), a)) ==
      AcceptedBytes(Notes(s, a)) + if note.Accepted? then note.bytes else []
  {
    var n := Notes(s, a) + [note];
    assert n[..|n| - 1] == Notes(s, a) && Notes(Noted(s, a, note), a) == n;
    assert AcceptedBytes(Notes(s, a)) + [] == AcceptedBytes(Notes(s, a));
  }

  lemma FlushAccepts(s: State, a: Agent)
    ensures AcceptedBytes(Notes(FlushInput(s, a), a)) == AcceptedBytes(Notes(s, a))
    ensures FlushInput(s, a).shells.Keys == s.shells.Keys
  {
    hide AcceptedBytes, Noted, Notes;
    if a in s.shells && s.shells[a].id.Some? && !s.shells[a].inputBusy && s.shells[a].input != [] && s.connected {
      var sh := s.shells[a];
      var u := PushJob(Put(s, a, sh.(inputBusy := true, input := [])), a, sh.generation, Input(sh.id.value, sh.input));
      NoteAdds(u, a, SentInput(sh.input, s.nextJob));
      SameNotes(s, u, a);
      NotedShells(u, a, SentInput(sh.input, s.nextJob));
      assert AcceptedBytes(Notes(s, a)) + [] == AcceptedBytes(Notes(s, a));
    }
  }

  lemma SameNotes(s: State, t: State, a: Agent)
    requires s.notes == t.notes
    ensures Notes(s, a) == Notes(t, a)
  {
  }

  lemma NotedShells(s: State, a: Agent, note: Note)
    ensures Noted(s, a, note).shells == s.shells
  {
  }

  /** Bytes typed are taken whole when they fit, and not at all otherwise. */
  lemma InputIsTakenWhole(s: State, a: Agent, bytes: seq<Byte>)
    ensures var t := Next(s, InputStep(a, bytes));
      && t.shells.Keys == s.shells.Keys
      && AcceptedBytes(Notes(t, a)) == AcceptedBytes(Notes(s, a)) +
           if a in s.shells && |s.shells[a].input| + |bytes| <= 1048576 then bytes else []
  {
    hide AcceptedBytes, Noted, Notes, FlushInput;
    assert AcceptedBytes(Notes(s, a)) + [] == AcceptedBytes(Notes(s, a));
    if a in s.shells && |s.shells[a].input| + |bytes| <= 1048576 {
      var u := Put(s, a, s.shells[a].(input := s.shells[a].input + bytes));
      SameNotes(s, u, a);
      NoteAdds(u, a, Accepted(bytes));
      NotedShells(u, a, Accepted(bytes));
      FlushAccepts(Noted(u, a, Accepted(bytes)), a);
    } else {
      SameNotes(s, Next(s, InputStep(a, bytes)), a);
    }
  }

  predicate OpenedAs(s: State, t: State, a: Agent, cwd: string, size: Size) {
    && a in t.shells && t.shells[a].wanted && t.shells[a].size == size
    && t.shells[a].cwd == (if a in s.shells && s.shells[a].cwd != "" then s.shells[a].cwd else cwd)
    && t.shells[a].input == (if a in s.shells then s.shells[a].input else [])
  }

  /** Opening wants the shell in the size of the window and in its first folder; without the hub that fails. */
  lemma OpenOffline(s: State, a: Agent, cwd: string, size: Size)
    requires !s.connected
    ensures var t := Next(s, OpenStep(a, cwd, size));
      OpenedAs(s, t, a, cwd, size) && NoCall(s, t) && Status(t, a, Failed)
  {
    hide CreateShell, AttachShell, FlushResize;
  }

  /** With the hub a shell that is not there is created in that folder and size. */
  lemma OpenCreates(s: State, a: Agent, cwd: string, size: Size)
    requires s.connected && (a in s.shells ==> s.shells[a].id.None?)
    ensures var t := Next(s, OpenStep(a, cwd, size));
      && OpenedAs(s, t, a, cwd, size) && Status(t, a, Starting) && t.shells[a].generation == s.generation + 1
      && Pushed(s, t, a, Create(t.shells[a].cwd, size))
  {
    hide AttachShell, ShellEnded;
    var sh := Opened(if a in s.shells then s.shells[a] else NewShell(cwd, size), cwd, size);
    FlushResizeSends(CreateShell(Put(s, a, sh), a), a);
  }

  /** One that is there and not shown is attached, and told of a size that changed. */
  lemma OpenAttaches(s: State, a: Agent, cwd: string, size: Size)
    requires s.connected && a in s.shells && s.shells[a].id.Some?
    ensures var t, sh := Next(s, OpenStep(a, cwd, size)), s.shells[a];
      && OpenedAs(s, t, a, cwd, size) && t.shells[a].id == sh.id && t.shells[a].attached
      && (!sh.attached ==> Status(t, a, Attaching) && s.nextJob in t.jobs)
      && (!sh.attached ==> t.jobs[s.nextJob] == Job(s.epoch, a, sh.generation, Attach(sh.id.value)))
      && (sh.size != size ==> t.shells[a].resizePending || Pushed(s, t, a, Resize(sh.id.value, size)))
  {
    hide CreateShell, ShellEnded, FlushResize, AttachShell;
    var sh := Opened(s.shells[a], cwd, size);
    var t := Put(s, a, sh);
    AttachPushed(t, a);
    var u := if sh.attached then t else AttachShell(t, a);
    FlushResizeSends(u, a);
    if FlushResize(u, a) != u { ResizePushed(u, a); }
  }

  lemma AttachPushed(s: State, a: Agent)
    requires a in s.shells && s.shells[a].id.Some?
    ensures var t := AttachShell(s, a);
      && t.shells == s.shells[a := s.shells[a].(attached := true)] && Status(t, a, Attaching)
      && t.epoch == s.epoch && t.connected == s.connected && t.nextJob == s.nextJob + 1
      && t.jobs == s.jobs[s.nextJob := Job(s.epoch, a, s.shells[a].generation, Attach(s.shells[a].id.value))]
  {
  }

  lemma ResizePushed(s: State, a: Agent)
    requires FlushResize(s, a) != s
    ensures var t := FlushResize(s, a);
      a in s.shells && s.shells[a].id.Some? && Pushed(s, t, a, Resize(s.shells[a].id.value, s.shells[a].size)) &&
      t.statuses == s.statuses
  {
  }

  /** A shell off screen is neither wanted nor shown, but it and what was typed stay. */
  lemma HideLeavesTheShell(s: State, a: Agent)
    requires a in s.shells
    ensures var t := Next(s, HideStep(a));
      && t.shells == s.shells[a := s.shells[a].(wanted := false, attached := false)] && NoCall(s, t)
      && (s.shells[a].attached && s.shells[a].id.Some? && (Status(s, a, Live) || Status(s, a, Attaching)) ==>
            Status(t, a, Detached))
      && (Status(s, a, Exited) || Status(s, a, Failed) ==> t.statuses == s.statuses)
  {
  }

  /** A restart drops the buffer and makes a new shell in the folder and size given. */
  lemma RestartMakesANewShell(s: State, a: Agent, cwd: string, size: Size)
    requires a in s.shells
    ensures var t := Next(s, RestartStep(a, cwd, size));
      && t.shells[a].id == None && t.shells[a].input == [] && t.shells[a].wanted && !t.shells[a].attached
      && t.shells[a].cwd == cwd && t.shells[a].size == size
      && (s.connected ==> Pushed(s, t, a, Create(cwd, size)) && t.shells[a].generation == s.generation + 1)
      && (!s.connected ==> NoCall(s, t))
  {
  }

  /** A remembered shell is joined to an agent that has none, out of sight and without a call. */
  lemma AdoptRemembers(s: State, a: Agent, id: Id)
    ensures var t := Next(s, AdoptStep([(a, id)]));
      && NoCall(s, t)
      && if a !in s.shells && id != "" then
           && a in t.shells && t.shells[a].id == Some(id) && !t.shells[a].wanted && !t.shells[a].attached
           && t.shells[a].generation == s.generation + 1 && Status(t, a, Detached)
         else t == s
  {
    var known := [(a, id)];
    assert known[1..] == [];
    assert Adopt(s, known) == Adopt(AdoptOne(s, a, id), []);
  }

  /** A new size is the shell's at once and waits to be sent, or is sent. */
  lemma ResizeIsTheSize(s: State, a: Agent, size: Size)
    requires a in s.shells
    ensures var t := Next(s, ResizeStep(a, size));
      && t.shells[a].size == size
      && (s.shells[a].size != size ==>
            t.shells[a].resizePending || Pushed(s, t, a, Resize(s.shells[a].id.value, size)))
      && (s.shells[a].size == size ==> t == s)
  {
  }

  // ---- what the hub says -------------------------------------------------

  /** Output seen shows that the shell lives; output missed attaches again, so nothing is left out. */
  lemma OutputShowsLife(s: State, a: Agent, kept: bool)
    requires Enabled(s, OutputStep(a, kept)) && s.shells[a].attached
    ensures var t := Next(s, OutputStep(a, kept));
      && (!kept ==> Pushed(s, t, a, Attach(s.shells[a].id.value)) && Status(t, a, Attaching))
      && (kept ==> NoCall(s, t) && (Status(s, a, Attaching) ==> Status(t, a, Live)))
  {
  }

  /** A shell that exits is gone with what was typed for it; one that was reset is attached again if shown. */
  lemma SignalsAreFollowed(s: State, a: Agent)
    requires Enabled(s, SignalStep(a, true))
    ensures var t := Next(s, SignalStep(a, true));
      && t.shells[a].id == None && t.shells[a].input == [] && !t.shells[a].attached
      && Status(t, a, Exited) && NoCall(s, t)
    ensures var t := Next(s, SignalStep(a, false));
      if s.shells[a].attached then Pushed(s, t, a, Attach(s.shells[a].id.value)) else t == s
  {
  }

  predicate Fresh(s: State, j: nat, a: Agent) {
    && j in s.jobs && s.jobs[j].epoch == s.epoch && s.jobs[j].agent == a
    && a in s.shells && s.shells[a].generation == s.jobs[j].generation
  }

  /** A shell created is the agent's, attached if it is on screen, and gets what was typed meanwhile; without an
      id it failed. */
  lemma CreatedIsTaken(s: State, j: nat, a: Agent, id: Option<Id>)
    requires Fresh(s, j, a) && Enabled(s, CompleteStep(j, Created(id)))
    ensures var t := Next(s, CompleteStep(j, Created(id)));
      if id.None? || id.value == "" then
        Status(t, a, Failed) && t.shells == s.shells && t.nextJob == s.nextJob
      else
        && t.shells[a].id == id && t.nextJob > s.nextJob - 1
        && (s.shells[a].wanted ==> t.shells[a].attached && Status(t, a, Attaching))
        && (!s.shells[a].wanted ==> Status(t, a, Detached) && t.shells[a].attached == s.shells[a].attached)
        && (s.connected && !s.shells[a].inputBusy ==>
              && t.shells[a].input == []
              && (s.shells[a].input != [] ==> Pushed(s, t, a, Input(id.value, s.shells[a].input))))
  {
  }

  /** An attach that succeeds shows the shell live; one whose shell is gone makes another if it is wanted and
      ends it otherwise; one that fails says so. */
  lemma AttachIsAnswered(s: State, j: nat, a: Agent, answer: Answer)
    requires Fresh(s, j, a) && Enabled(s, CompleteStep(j, answer)) && s.jobs[j].call.Attach?
    ensures var t := Next(s, CompleteStep(j, answer));
      match answer
      case AttachedOk => Status(s, a, Attaching) ==> Status(t, a, Live)
      case AttachGone =>
        if s.shells[a].wanted then
          && Pushed(s, t, a, Create(s.shells[a].cwd, s.shells[a].size)) && Status(t, a, Starting)
          && t.shells[a].id.None? && t.shells[a].input == s.shells[a].input
        else Status(t, a, Exited) && t.shells[a].id.None? && t.shells[a].input == []
      case AttachFailed => Status(t, a, Failed) && !t.shells[a].attached && t.shells[a].id == s.shells[a].id
      case _ => true
  {
  }

  /** After an input call whatever was typed meanwhile goes out; a lapsed lease attaches again. */
  lemma InputGoesOn(s: State, j: nat, a: Agent, ok: bool)
    requires Fresh(s, j, a) && s.jobs[j].call.Input? && s.shells[a].id.Some? && s.connected
    ensures var t := Next(s, CompleteStep(j, InputDone(ok)));
      && t.shells[a].input == []
      && (s.shells[a].input != [] ==> Pushed(s, t, a, Input(s.shells[a].id.value, s.shells[a].input)))
      && (t.shells[a].inputBusy <==> s.shells[a].input != [])
  {
  }

  lemma LeaseIsRenewed(s: State, j: nat, a: Agent)
    requires Fresh(s, j, a) && s.jobs[j].call.Keepalive? && s.shells[a].attached && s.shells[a].id.Some?
    ensures Pushed(s, Next(s, CompleteStep(j, LeaseLapsed)), a, Attach(s.shells[a].id.value))
    ensures Next(s, CompleteStep(j, LeaseHeld)) == s.(jobs := s.jobs - {j})
  {
  }

  /** An answer of an earlier connection, of a shell since replaced or for an agent without one is only taken
      off the list. */
  lemma LateAnswersChangeNothing(s: State, j: nat, answer: Answer)
    requires Enabled(s, CompleteStep(j, answer)) && !Fresh(s, j, s.jobs[j].agent)
    ensures Next(s, CompleteStep(j, answer)) == s.(jobs := s.jobs - {j})
  {
  }

  // ---- connections -------------------------------------------------------

  /** A lost connection: nothing is shown, buffered or awaited; terminals on screen wait to be resumed. */
  lemma LostConnectionClears(s: State, a: Agent)
    requires a in s.shells
    ensures var t := Next(s, DisconnectedStep);
      && !t.connected && t.epoch == s.epoch + 1 && NoCall(s, t) && t.shells.Keys == s.shells.Keys
      && t.shells[a] == s.shells[a].(attached := false, input := [], inputBusy := false, resizeBusy := false)
      && (s.shells[a].wanted && !Status(s, a, Exited) ==> Status(t, a, Attaching))
      && (!s.shells[a].wanted || Status(s, a, Exited) ==>
            (a in t.statuses <==> a in s.statuses) && (a in t.statuses ==> t.statuses[a] == s.statuses[a]))
  {
  }

  predicate Same(s: State, t: State, a: Agent) {
    && (a in t.shells <==> a in s.shells) && (a in s.shells ==> t.shells[a] == s.shells[a])
    && (a in t.statuses <==> a in s.statuses) && (a in s.statuses ==> t.statuses[a] == s.statuses[a])
  }

  lemma CreateOther(s: State, b: Agent, a: Agent)
    requires a != b
    ensures var u := CreateShell(s, b);
      u.connected == s.connected && u.epoch == s.epoch && u.generation >= s.generation && Same(s, u, a)
  {
  }

  lemma AttachOther(s: State, b: Agent, a: Agent)
    requires a != b
    ensures var u := AttachShell(s, b);
      u.connected == s.connected && u.epoch == s.epoch && u.generation >= s.generation && Same(s, u, a)
  {
  }

  lemma ReopenOther(s: State, b: Agent, a: Agent)
    requires a != b
    ensures var u := Reopen(s, b);
      u.connected == s.connected && u.epoch == s.epoch && u.generation >= s.generation && Same(s, u, a)
  {
    hide CreateShell, AttachShell;
    CreateOther(s, b, a);
    AttachOther(s, b, a);
  }

  lemma {:induction false} ReopenLeaves(s: State, agents: seq<Agent>, a: Agent)
    requires a !in agents
    ensures Same(s, ReopenAll(s, agents), a)
    decreases |agents|
  {
    hide Reopen;
    if agents != [] {
      assert agents[0] != a && a !in agents[1..];
      ReopenOther(s, agents[0], a);
      ReopenLeaves(Reopen(s, agents[0]), agents[1..], a);
    }
  }

  /** A new connection resumes each terminal on screen: one that is there is attached, one that is not is
      created, one that exited is left. */
  lemma {:induction false} ConnectionResumes(s: State, agents: seq<Agent>, a: Agent)
    requires Enabled(s, ConnectedStep(agents)) && a in s.shells && s.shells[a].wanted
    ensures var t := Next(s, ConnectedStep(agents));
      && t.connected && t.epoch == s.epoch + 1 && a in t.shells
      && if s.shells[a].id.Some? then t.shells[a] == s.shells[a].(attached := true) && Status(t, a, Attaching)
         else if Status(s, a, Exited) then Same(s, t, a)
         else t.shells[a].id.None? && t.shells[a].generation > s.generation && Status(t, a, Starting)
  {
    var c := s.(epoch := s.epoch + 1, connected := true);
    assert a in Wanted(s.shells);
    ResumesOne(c, agents, a);
  }

  lemma {:induction false} ResumesOne(s: State, agents: seq<Agent>, a: Agent)
    requires a in agents && a in s.shells && forall i, j :: 0 <= i < j < |agents| ==> agents[i] != agents[j]
    ensures var t := ReopenAll(s, agents);
      && a in t.shells && t.connected == s.connected && t.epoch == s.epoch
      && if s.shells[a].id.Some? then t.shells[a] == s.shells[a].(attached := true) && Status(t, a, Attaching)
         else if Status(s, a, Exited) then Same(s, t, a)
         else t.shells[a].id.None? && t.shells[a].generation > s.generation && Status(t, a, Starting)
    decreases |agents|
  {
    hide Reopen, Status, Same;
    var u := Reopen(s, agents[0]);
    ReopenOne(s, agents[0], a);
    if agents[0] == a {
      forall i | 0 <= i < |agents[1..]| ensures agents[1..][i] != a { assert agents[0] != agents[i + 1]; }
      ReopenLeaves(u, agents[1..], a);
      ReopenEpoch(u, agents[1..]);
      Carries(s, u, ReopenAll(u, agents[1..]), a);
    } else {
      ResumesOne(u, agents[1..], a);
      Carries(s, u, ReopenAll(u, agents[1..]), a);
    }
  }

  lemma Carries(s: State, u: State, t: State, a: Agent)
    ensures Same(u, t, a) ==> (forall x :: Status(u, a, x) <==> Status(t, a, x)) && (Same(s, u, a) ==> Same(s, t, a))
    ensures Same(u, t, a) && a in u.shells ==> a in t.shells && t.shells[a] == u.shells[a]
    ensures Same(s, u, a) ==> forall x :: Status(s, a, x) <==> Status(u, a, x)
    ensures Same(s, u, a) && Same(u, t, a) ==> Same(s, t, a)
    ensures Same(s, u, a) && a in s.shells ==> a in u.shells && u.shells[a] == s.shells[a]
  {
  }

  lemma ReopenOne(s: State, b: Agent, a: Agent)
    requires a in s.shells
    ensures var u := Reopen(s, b);
      && u.connected == s.connected && u.epoch == s.epoch && a in u.shells && u.generation >= s.generation
      && if a != b then Same(s, u, a)
         else if s.shells[a].id.Some? then u.shells[a] == s.shells[a].(attached := true) && Status(u, a, Attaching)
         else if Status(s, a, Exited) then Same(s, u, a)
         else u.shells[a].id.None? && u.shells[a].generation > s.generation && Status(u, a, Starting)
  {
    if a != b {
      hide Reopen;
      ReopenOther(s, b, a);
    }
  }

  lemma {:induction false} ReopenEpoch(s: State, agents: seq<Agent>)
    ensures ReopenAll(s, agents).epoch == s.epoch && ReopenAll(s, agents).connected == s.connected
    decreases |agents|
  {
    if agents != [] { ReopenEpoch(Reopen(s, agents[0]), agents[1..]); }
  }
}
