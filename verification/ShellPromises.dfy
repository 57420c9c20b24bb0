/** What every agent's shell promises. */
module ShellPromises {
  import opened Wrappers
  import opened Shells
  import opened ShellProof
  import opened ShellRuns
  import opened ShellCalls

  lemma {:induction false} EveryRun(steps: seq<Step>)
    requires Exec(Init(), steps).Some?
    ensures Inv(Exec(Init(), steps).value)
  {
    hide Exec;
    assert Inv(Init());
    RunKeeps(Init(), steps);
  }

  /** The bytes the agent's input calls carry, call by call since the buffer was last cleared, then the
      buffer: all that was accepted, in order; and never too much held. */
  lemma {:induction false} TypedBytesGoOutInOrder(steps: seq<Step>, a: Agent)
    requires Exec(Init(), steps).Some? && a in Exec(Init(), steps).value.shells
    ensures var s := Exec(Init(), steps).value;
      && AcceptedBytes(Notes(s, a)) == CalledBytes(s.issued, Notes(s, a)) + s.shells[a].input
      && |s.shells[a].input| <= MAX_TERMINAL_INPUT
  {
    hide Exec, AcceptedBytes, IssuedBytes, CalledBytes, NotesTell;
    EveryRun(steps);
    EveryCall(steps);
    var s := Exec(Init(), steps).value;
    assert ShellOk(s, a) && NotesTell(s.issued, a, Notes(s, a));
    BytesAreCalled(s.issued, a, Notes(s, a));
  }

  lemma {:induction false} EveryCall(steps: seq<Step>)
    requires Exec(Init(), steps).Some?
    ensures CallsInv(Exec(Init(), steps).value)
  {
    hide Exec;
    assert CallsInv(Init()) by { NothingIssued(); }
    RunCalls(Init(), steps);
  }

  lemma NothingIssued()
    ensures CallsInv(Init())
  {
  }

  /** Each outstanding call is the one issued under its number; what was noted of bytes and sizes is what the
      calls carry, and no call with bytes or a size went unnoted. */
  lemma {:induction false} NotesTellTheCalls(steps: seq<Step>, a: Agent, j: nat)
    requires Exec(Init(), steps).Some?
    ensures var s := Exec(Init(), steps).value;
      && |s.issued| == s.nextJob && (j in s.jobs ==> j < |s.issued| && s.jobs[j] == s.issued[j])
      && NotesTell(s.issued, a, Notes(s, a)) && (j < |s.issued| ==> WasNoted(s, j))
  {
    hide Exec, NotesTell, WasNoted;
    EveryCall(steps);
    assert NotesTell(Exec(Init(), steps).value.issued, a, Notes(Exec(Init(), steps).value, a));
  }

  /** At most one input call is out for the shell the agent has now. */
  lemma {:induction false} OneInputCallAtATime(steps: seq<Step>, i: nat, j: nat)
    requires Exec(Init(), steps).Some?
    requires var s := Exec(Init(), steps).value;
      && i in s.jobs && j in s.jobs && IsLive(s, s.jobs[i]) && IsLive(s, s.jobs[j])
      && s.jobs[i].agent == s.jobs[j].agent
      && s.jobs[i].call.Input? && s.jobs[j].call.Input?
    ensures i == j && Exec(Init(), steps).value.shells[Exec(Init(), steps).value.jobs[i].agent].inputBusy
  {
    hide Exec;
    EveryRun(steps);
    var s := Exec(Init(), steps).value;
    assert ShellOk(s, s.jobs[i].agent) && JobOk(s, i) && JobOk(s, j);
  }

  /** With no resize pending, the last size issued, by create or by resize, is the present one; a shell
      remembered from an earlier run is the only one that may not have been told yet. */
  lemma {:induction false} LastSizeIssuedIsTheSize(steps: seq<Step>, a: Agent)
    requires Exec(Init(), steps).Some?
    requires var s := Exec(Init(), steps).value;
      a in s.shells && s.shells[a].id.Some? && !s.shells[a].resizePending
    ensures var s := Exec(Init(), steps).value;
      LastTold(Notes(s, a)) == Told(s.shells[a].size) || LastTold(Notes(s, a)) == Unknown
  {
    hide Exec;
    EveryRun(steps);
    assert SizeOk(Exec(Init(), steps).value, a);
  }
}
