/** What every run of the bus promises (bus.rs). */
module BusPromises {
  import opened Wrappers
  import opened Bus
  import Calls = BusCalls
  import Events = BusEvents
  import Pause = PowerPause
  import Clicks = PauseClicks

  // ---- callers -----------------------------------------------------------

  /** Over every run: one frame per call under a fresh id, one verdict per call, and never more
      than 64 calls pending. */
  lemma {:induction false} AtMostOnce(steps: seq<Step>)
    requires Exec(steps).Some?
    ensures Calls.WrittenOnce(Exec(steps).value.trace)
    ensures Calls.ResolvedOnce(Exec(steps).value.trace)
    ensures |Exec(steps).value.pending| <= MAX_PENDING
  {
    var m := Calls.RunKeeps(steps);
  }

  /** A caller told "not sent" never has a frame on any socket, before or after it was told. */
  lemma {:induction false} NotSentMeansNeverWritten(steps: seq<Step>, call: nat)
    requires Exec(steps).Some? && Resolved(call, NotSent) in Exec(steps).value.trace
    ensures Calls.Unwritten(Exec(steps).value.trace, call)
  {
    var m := Calls.RunKeeps(steps);
    Calls.CallFacts(Calls.Calls(Exec(steps).value), m, call);
  }

  /** A hub verdict comes from a reply to this call's own id, read on the socket that carried
      the call after it was written. */
  lemma {:induction false} HubVerdictIsItsOwnReply(steps: seq<Step>, call: nat, verdict: Verdict)
    returns (i: nat, j: nat)
    requires Exec(steps).Some? && Resolved(call, verdict) in Exec(steps).value.trace
    requires verdict.HubError? || verdict.HubValue?
    ensures Calls.Accounts(Exec(steps).value.trace, i, j, call, verdict)
  {
    var s := Exec(steps).value;
    var m := Calls.RunKeeps(steps);
    Calls.CallFacts(Calls.Calls(s), m, call);
    i, j :| Calls.Accounts(s.trace, i, j, call, verdict);
  }

  // ---- the window --------------------------------------------------------

  /** Every run tells a prefix of ((Connected Data*)? (Disconnected | PowerPaused))*, and only
      dials from rest: after a pause, not before that pause has ended. */
  lemma {:induction false} EveryRunTellsTheStory(steps: seq<Step>)
    requires Exec(steps).Some?
    ensures Events.Told(Exec(steps).value.trace) != Events.Broken
  {
    Events.RunKeeps(steps);
  }

  /** On each connection the data announced is the data read after hello, from the first and
      without a hole; while the connection lasts it is all of it. */
  lemma {:induction false} EveryConnectionIsGapFree(steps: seq<Step>, socket: nat)
    requires Exec(steps).Some?
    ensures var s := Exec(steps).value;
      && Events.Announced(s.trace, socket) <= Events.Frames(s.trace, socket)
      && |Events.Frames(s.trace, socket)| <= |Events.Announced(s.trace, socket)| + 1
      && (socket == s.socket && Connection(s.phase) ==>
            Events.Announced(s.trace, socket) == Events.Frames(s.trace, socket))
  {
    Events.RunKeeps(steps);
    assert Events.SocketInv(Events.Talk(Exec(steps).value), socket);
  }

  // ---- intentional pauses ------------------------------------------------

  /** Conservation: while the actor runs there is exactly one resume token during a pause and
      none outside it, however many callers race on the latch. */
  lemma {:induction false} TokensConserved(steps: seq<Step>)
    requires Exec(steps).Some? && Exec(steps).value.phase != Stopped
    ensures Pause.Tokens(Exec(steps).value) == if Exec(steps).value.paused then 1 else 0
  {
    Pause.RunKeeps(steps);
  }

  /** Pauses, accepted resumes and endings alternate: each accepted resume ends the pause it was
      accepted in, and none is left over for a later one. */
  lemma {:induction false} EachResumeEndsOnePause(steps: seq<Step>)
    requires Exec(steps).Some?
    ensures Pause.Episodes(Exec(steps).value.trace) != Pause.Broken
    ensures var s := Exec(steps).value;
      s.phase != Stopped && !s.paused ==> Pause.Episodes(s.trace) == Pause.Running && Pause.Resumes(s.commands) == 0
  {
    Pause.RunKeeps(steps);
  }

  /** A click that is accepted named the generation of the pause going on: it is the last of the
      ledger, which lists every pause so far, and no other pause was ever shown under it. */
  lemma {:induction false} AcceptedClickNamesItsPause(moves: seq<Clicks.Move>)
    requires Clicks.Play(moves).Some?
    requires Clicks.Possible(Clicks.Play(moves).value, Clicks.ClickSend) && Clicks.Accepted(Clicks.Play(moves).value)
    ensures var s := Clicks.Play(moves).value;
      && |s.ledger| == Pause.Begun(s.bus.trace) > 0
      && s.resuming == Some(s.ledger[|s.ledger| - 1])
      && (forall i :: 0 <= i < |s.ledger| - 1 ==> s.resuming != Some(s.ledger[i]))
      && Pause.Episodes(s.bus.trace) == Pause.Stopping
  {
    Clicks.PlayKeeps(moves);
  }

  /** While a pause is on screen a click on it finds the latch set: only a full command queue, or
      an actor that is gone, can refuse it. */
  lemma {:induction false} ShownPauseCanBeResumed(moves: seq<Clicks.Move>)
    requires Clicks.Play(moves).Some?
    ensures var s := Clicks.Play(moves).value;
      s.paused && s.resuming == None && s.bus.phase != Stopped ==> s.bus.powerPaused
  {
    Clicks.PlayKeeps(moves);
  }
}
