/** What every run of the bus owes its callers: each call's frame is written at most once, each call is
    answered at most once, and every verdict is true of what reached a socket (bus.rs). */
module BusCalls {
  import opened Wrappers
  import opened Bus

  // ---- what is promised, about a history ---------------------------------

  ghost predicate Unwritten(t: seq<IO>, call: nat) {
    forall k, id :: Wrote(k, id, call) !in t
  }

  /** The frames at `i` and `j` account for a hub verdict: this call's own frame was written
      under some id on some socket, and a reply with that id was then read on that socket. */
  ghost predicate Accounts(t: seq<IO>, i: int, j: int, call: nat, verdict: Verdict) {
    && 0 <= i < j < |t|
    && t[i].Wrote? && t[i].call == call
    && t[j].Read? && t[j].socket == t[i].socket
    && t[j].frame.Reply? && t[j].frame.id == Some(t[i].id)
    && CallResult(t[j].frame.body) == verdict
  }

  ghost predicate Truthful(t: seq<IO>, call: nat, verdict: Verdict) {
    match verdict
    case NotSent => Unwritten(t, call)
    case OutcomeUnknown => true
    case HubError(_) => exists i, j :: Accounts(t, i, j, call, verdict)
    case HubValue(_) => exists i, j :: Accounts(t, i, j, call, verdict)
  }

  /** Ids only grow, and no call is ever written twice. */
  ghost predicate WrittenOnce(t: seq<IO>) {
    forall i, j :: 0 <= i < j < |t| && t[i].Wrote? && t[j].Wrote? ==>
      t[i].id < t[j].id && t[i].call != t[j].call
  }

  ghost predicate ResolvedOnce(t: seq<IO>) {
    forall i, j :: 0 <= i < j < |t| && t[i].Resolved? && t[j].Resolved? ==> t[i].call != t[j].call
  }

  // ---- the inductive invariant -------------------------------------------

  /** The part of the state that calls depend on. */
  datatype Ledger = Ledger(commands: seq<Command>, calls: map<nat, Caller>, pending: map<nat, nat>,
                           counter: nat, socket: nat, trace: seq<IO>)

  function Calls(s: State): Ledger {
    Ledger(s.commands, s.calls, s.pending, s.counter, s.socket, s.trace)
  }

  /** Where a call's reply sender is: not made yet, inside its queued command, in the pending
      table under an id, or used up. There is only ever one. */
  datatype Sender = Unmade | InQueue | InPending(id: nat) | Spent

  /** The caller of an unspent sender: still waiting, or gone after its timeout. */
  predicate Owed(calls: map<nat, Caller>, call: nat) {
    call in calls && (calls[call] == Waiting(Empty) || calls[call] == Done(OutcomeUnknown))
  }

  ghost predicate CallInv(l: Ledger, call: nat, at: Sender)
    requires call in l.calls
  {
    match at
    case Unmade => l.calls[call] == Asking && Unwritten(l.trace, call)
    case InQueue => Owed(l.calls, call) && Call(call) in l.commands && Unwritten(l.trace, call)
    case InPending(id) =>
      && Owed(l.calls, call) && id in l.pending && l.pending[id] == call
      && Wrote(l.socket, id, call) in l.trace
    case Spent =>
      match l.calls[call]
      case Asking => false
      case Waiting(Empty) => false
      case Waiting(Filled(v)) => Truthful(l.trace, call, v)
      case Waiting(Dropped) => true
      case Done(v) => Truthful(l.trace, call, v)
  }

  ghost predicate SenderInv(l: Ledger, m: map<nat, Sender>) {
    && m.Keys == l.calls.Keys
    && (forall c {:trigger CallInv(l, c, m[c])} :: c in m ==> CallInv(l, c, m[c]))
    && (forall c :: Call(c) in l.commands ==> c in m && m[c] == InQueue)
    && (forall i, j :: 0 <= i < j < |l.commands| && l.commands[i].Call? ==>
          l.commands[i] != l.commands[j])
    && (forall id :: id in l.pending ==> l.pending[id] in m && m[l.pending[id]] == InPending(id))
  }

  ghost predicate TraceInv(l: Ledger) {
    && WrittenOnce(l.trace)
    && ResolvedOnce(l.trace)
    && (forall k: nat, id: nat, c: nat :: Wrote(k, id, c) in l.trace ==> id <= l.counter && c in l.calls)
    && (forall c: nat, v :: Resolved(c, v) in l.trace ==> c in l.calls && l.calls[c] == Done(v))
  }

  ghost predicate LedgerInv(l: Ledger, m: map<nat, Sender>) {
    SenderInv(l, m) && TraceInv(l)
  }

  /** What the invariant says of one call. */
  lemma CallFacts(l: Ledger, m: map<nat, Sender>, call: nat)
    requires LedgerInv(l, m)
    ensures call in m <==> call in l.calls
    ensures call in m ==> CallInv(l, call, m[call])
    ensures call !in m ==> Unwritten(l.trace, call)
    ensures Call(call) in l.commands ==> call in m && m[call] == InQueue
    ensures forall id :: id in l.pending && l.pending[id] == call ==> call in m && m[call] == InPending(id)
  {
  }

  // ---- histories only grow -----------------------------------------------

  lemma TruthfulGrows(t: seq<IO>, e: seq<IO>, call: nat, verdict: Verdict)
    requires Truthful(t, call, verdict)
    requires forall k :: 0 <= k < |e| ==> !(e[k].Wrote? && e[k].call == call)
    ensures Truthful(t + e, call, verdict)
  {
    if verdict.HubError? || verdict.HubValue? {
      var i, j :| Accounts(t, i, j, call, verdict);
      assert Accounts(t + e, i, j, call, verdict);
    }
  }

  lemma CallInvGrows(l: Ledger, e: seq<IO>, call: nat, at: Sender)
    requires call in l.calls && CallInv(l, call, at)
    requires forall k :: 0 <= k < |e| ==> !(e[k].Wrote? && e[k].call == call)
    ensures CallInv(l.(trace := l.trace + e), call, at)
  {
    if at == Spent {
      match l.calls[call]
      case Waiting(Filled(v)) => TruthfulGrows(l.trace, e, call, v);
      case Done(v) => TruthfulGrows(l.trace, e, call, v);
      case _ =>
    }
  }

  /** Entries that neither write nor resolve leave every fact about calls alone; the socket may
      only move on when nothing is pending. */
  lemma Quiet(l: Ledger, m: map<nat, Sender>, e: seq<IO>, socket: nat)
    requires LedgerInv(l, m)
    requires l.pending != map[] ==> socket == l.socket
    requires forall k :: 0 <= k < |e| ==> !e[k].Wrote? && !e[k].Resolved?
    ensures LedgerInv(l.(trace := l.trace + e, socket := socket), m)
  {
    var l' := l.(trace := l.trace + e, socket := socket);
    forall c | c in m ensures CallInv(l', c, m[c]) {
      CallInvGrows(l, e, c, m[c]);
    }
  }

  // ---- callers -----------------------------------------------------------

  lemma ReturnTrace(l: Ledger, call: nat, verdict: Verdict)
    requires TraceInv(l)
    requires call in l.calls ==> !l.calls[call].Done?
    ensures TraceInv(l.(calls := l.calls[call := Done(verdict)], trace := l.trace + [Resolved(call, verdict)]))
  {
    var t := l.trace + [Resolved(call, verdict)];
    forall i | 0 <= i < |l.trace| && l.trace[i].Resolved? ensures l.trace[i].call != call {
      assert Resolved(l.trace[i].call, l.trace[i].verdict) in l.trace;
    }
    assert ResolvedOnce(t);
    assert WrittenOnce(t);
  }

  /** A caller returns: its verdict is truthful and it had not returned before. */
  lemma ReturnKeeps(l: Ledger, m: map<nat, Sender>, call: nat, verdict: Verdict) returns (m': map<nat, Sender>)
    requires LedgerInv(l, m)
    requires call in l.calls ==> !l.calls[call].Done?
    requires Truthful(l.trace, call, verdict)
    requires verdict == OutcomeUnknown || call !in m || m[call] == Spent || m[call] == Unmade
    ensures LedgerInv(l.(calls := l.calls[call := Done(verdict)], trace := l.trace + [Resolved(call, verdict)]), m')
  {
    hide TraceInv, Truthful;
    var e := [Resolved(call, verdict)];
    var l' := l.(calls := l.calls[call := Done(verdict)], trace := l.trace + e);
    ReturnTrace(l, call, verdict);
    m' := if call !in m || m[call] == Unmade then m[call := Spent] else m;
    forall c | c in m' ensures CallInv(l', c, m'[c]) {
      if c == call {
        assert c in m ==> CallInv(l, c, m[c]);
        TruthfulGrows(l.trace, e, c, verdict);
      } else {
        assert CallInv(l, c, m[c]);
        CallInvGrows(l, e, c, m[c]);
      }
    }
  }

  lemma AskKeeps(l: Ledger, m: map<nat, Sender>, call: nat)
    requires LedgerInv(l, m) && call !in l.calls
    ensures LedgerInv(l.(calls := l.calls[call := Asking]), m[call := Unmade])
  {
    var l' := l.(calls := l.calls[call := Asking]);
    forall c | c in l.calls ensures CallInv(l', c, m[c]) {
      assert CallInv(l, c, m[c]);
    }
  }

  lemma EnqueueKeeps(l: Ledger, m: map<nat, Sender>, call: nat)
    requires LedgerInv(l, m) && call in l.calls && l.calls[call] == Asking
    ensures LedgerInv(l.(calls := l.calls[call := Waiting(Empty)], commands := l.commands + [Call(call)]),
                      m[call := InQueue])
  {
    assert CallInv(l, call, m[call]);
    var l' := l.(calls := l.calls[call := Waiting(Empty)], commands := l.commands + [Call(call)]);
    assert l'.commands[|l.commands|] == Call(call);
    forall c | c in l.calls && c != call ensures CallInv(l', c, m[c]) {
      assert CallInv(l, c, m[c]);
    }
  }

  lemma EnqueueOtherKeeps(l: Ledger, m: map<nat, Sender>, command: Command)
    requires LedgerInv(l, m) && !command.Call?
    ensures LedgerInv(l.(commands := l.commands + [command]), m)
  {
    var l' := l.(commands := l.commands + [command]);
    forall c | c in l.calls ensures CallInv(l', c, m[c]) {
      assert CallInv(l, c, m[c]);
    }
  }

  // ---- the actor ---------------------------------------------------------

  lemma PopOtherKeeps(l: Ledger, m: map<nat, Sender>)
    requires LedgerInv(l, m) && l.commands != [] && !l.commands[0].Call?
    ensures LedgerInv(l.(commands := l.commands[1..]), m)
  {
    var l' := l.(commands := l.commands[1..]);
    forall c | c in l.calls ensures CallInv(l', c, m[c]) {
      assert CallInv(l, c, m[c]);
    }
  }

  function MarkSpent(m: map<nat, Sender>, to: set<nat>): map<nat, Sender> {
    map c | c in m :: if c in to then Spent else m[c]
  }

  /** The senders of `to` are used with a truthful verdict, or dropped; what they were in
      shrinks to match. */
  lemma SettleKeeps(l: Ledger, l': Ledger, m: map<nat, Sender>, to: set<nat>, verdict: Option<Verdict>)
    requires LedgerInv(l, m)
    requires l' == l.(commands := l'.commands, calls := l'.calls, pending := l'.pending)
    requires l'.calls == match verdict { case Some(v) => AnswerAll(l.calls, to, v) case None => DropAll(l.calls, to) }
    requires l'.commands == l.commands || (l.commands != [] && l'.commands == l.commands[1..]) || l'.commands == []
    requires forall c :: Call(c) in l'.commands <==> Call(c) in l.commands && c !in to
    requires forall id :: id in l'.pending <==> id in l.pending && l.pending[id] !in to
    requires forall id :: id in l'.pending ==> l'.pending[id] == l.pending[id]
    requires verdict.Some? ==> forall c :: c in to && c in m ==> Truthful(l.trace, c, verdict.value)
    requires forall c :: c in to && c in m ==> m[c] != Unmade
    ensures LedgerInv(l', MarkSpent(m, to))
  {
    var m' := MarkSpent(m, to);
    forall c | c in m' ensures CallInv(l', c, m'[c]) {
      assert CallInv(l, c, m[c]);
    }
  }

  lemma WriteTrace(l: Ledger, call: nat)
    requires TraceInv(l) && call in l.calls && Unwritten(l.trace, call)
    ensures TraceInv(l.(counter := l.counter + 1, trace := l.trace + [Wrote(l.socket, l.counter + 1, call)]))
  {
    var t := l.trace + [Wrote(l.socket, l.counter + 1, call)];
    forall i | 0 <= i < |l.trace| && l.trace[i].Wrote? ensures l.trace[i].call != call && l.trace[i].id <= l.counter {
      assert Wrote(l.trace[i].socket, l.trace[i].id, l.trace[i].call) in l.trace;
    }
    assert WrittenOnce(t);
    assert ResolvedOnce(t);
  }

  /** Putting a queued call on the wire: a new id, and the call's only frame. */
  lemma WriteKeeps(l: Ledger, m: map<nat, Sender>, call: nat)
    requires LedgerInv(l, m) && l.commands != [] && l.commands[0] == Call(call)
    ensures LedgerInv(Ledger(l.commands[1..], l.calls, l.pending[l.counter + 1 := call], l.counter + 1, l.socket,
                             l.trace + [Wrote(l.socket, l.counter + 1, call)]),
                      m[call := InPending(l.counter + 1)])
  {
    var id := l.counter + 1;
    var e := [Wrote(l.socket, id, call)];
    var l' := Ledger(l.commands[1..], l.calls, l.pending[id := call], id, l.socket, l.trace + e);
    assert Call(call) in l.commands;
    assert CallInv(l, call, InQueue);
    WriteTrace(l, call);
    forall k | k in l.pending ensures k <= l.counter {
      assert CallInv(l, l.pending[k], InPending(k));
    }
    forall c | c in l.calls && c != call ensures CallInv(l', c, m[c]) {
      CallInvGrows(l, e, c, m[c]);
    }
    assert l'.trace[|l.trace|] == Wrote(l.socket, id, call);
  }

  // ---- one step ----------------------------------------------------------

  ghost predicate Inv(s: State, m: map<nat, Sender>) {
    && LedgerInv(Calls(s), m)
    && |s.pending| <= MAX_PENDING
    && (Connection(s.phase) || s.pending == map[])
  }

  lemma CallerStep(s: State, step: Step, m: map<nat, Sender>) returns (m': map<nat, Sender>)
    requires Inv(s, m) && Enabled(s, step)
    requires step.Check? || step.Submit? || step.TimeOut? || step.Receive?
    ensures Inv(Next(s, step), m')
  {
    hide LedgerInv, TakeLive, TakeFrame, TakeOffline, Halt, Teardown;
    var l := Calls(s);
    CallFacts(l, m, step.call);
    match step
    case Check(call) =>
      if s.connected {
        AskKeeps(l, m, call);
        m' := m[call := Unmade];
      } else {
        m' := ReturnKeeps(l, m, call, NotSent);
      }
    case Submit(call) =>
      if |s.commands| < COMMAND_QUEUE && s.phase != Stopped {
        EnqueueKeeps(l, m, call);
        m' := m[call := InQueue];
      } else {
        m' := ReturnKeeps(l, m, call, NotSent);
      }
    case TimeOut(call) =>
      m' := ReturnKeeps(l, m, call, OutcomeUnknown);
    case Receive(call) =>
      m' := ReturnKeeps(l, m, call, if s.calls[call].slot.Filled? then s.calls[call].slot.verdict else OutcomeUnknown);
  }

  /** Refusing the call at the head of the queue. */
  lemma RefuseKeeps(l: Ledger, m: map<nat, Sender>, call: nat)
    requires LedgerInv(l, m) && l.commands != [] && l.commands[0] == Call(call)
    ensures LedgerInv(l.(commands := l.commands[1..], calls := Answer(l.calls, call, NotSent)), MarkSpent(m, {call}))
  {
    var l' := l.(commands := l.commands[1..], calls := Answer(l.calls, call, NotSent));
    assert Call(call) in l.commands;
    assert CallInv(l, call, InQueue);
    assert call !in l.pending.Values;
    SettleKeeps(l, l', m, {call}, Some(NotSent));
  }

  lemma OfflineStep(s: State, m: map<nat, Sender>) returns (m': map<nat, Sender>)
    requires Inv(s, m) && s.commands != [] && !Connection(s.phase)
    ensures Inv(TakeOffline(s), m')
  {
    hide LedgerInv, AnswerAll;
    var l := Calls(s);
    match s.commands[0]
    case Resume =>
      PopOtherKeeps(l, m);
      m' := m;
      if s.phase == Paused {
        Quiet(Calls(s.(commands := s.commands[1..])), m, [PauseEnded, Dialed(s.socket + 1)], s.socket + 1);
      }
    case Topics(topics) =>
      PopOtherKeeps(l, m);
      m' := m;
    case Call(call) =>
      RefuseKeeps(l, m, call);
      m' := MarkSpent(m, {call});
  }

  lemma TeardownKeeps(s: State, m: map<nat, Sender>) returns (m': map<nat, Sender>)
    requires Inv(s, m)
    ensures Inv(Teardown(s), m')
  {
    var l := Calls(s);
    var to := s.pending.Values;
    forall c | Call(c) in s.commands ensures c !in to {
      assert m[c] == InQueue;
    }
    SettleKeeps(l, Calls(Teardown(s)), m, to, Some(OutcomeUnknown));
    m' := MarkSpent(m, to);
  }

  lemma Queued(commands: seq<Command>, c: nat)
    ensures Call(c) in commands ==> c in QueuedCalls(commands)
  {
    if Call(c) in commands {
      var i :| 0 <= i < |commands| && commands[i] == Call(c);
    }
  }

  lemma HaltKeeps(s: State, m: map<nat, Sender>) returns (m': map<nat, Sender>)
    requires Inv(s, m)
    ensures Inv(Halt(s), m')
  {
    hide QueuedCalls, TraceInv, DropAll, MarkSpent;
    var l := Calls(s);
    var to := s.pending.Values + QueuedCalls(s.commands);
    forall c ensures Call(c) in s.commands ==> c in to { Queued(s.commands, c); }
    forall c | c in to && c in m ensures m[c] != Unmade { Halted(s, m, c); }
    SettleKeeps(l, Calls(Halt(s)), m, to, None);
    m' := MarkSpent(m, to);
  }

  lemma Halted(s: State, m: map<nat, Sender>, c: nat)
    requires Inv(s, m) && c in m && c in s.pending.Values + QueuedCalls(s.commands)
    ensures m[c] != Unmade
  {
    if c in s.pending.Values {
      var id :| id in s.pending && s.pending[id] == c;
      assert m[s.pending[id]] == InPending(id);
    } else {
      assert Call(c) in s.commands;
    }
  }

  lemma PutSize(p: map<nat, nat>, id: nat, call: nat)
    ensures |p[id := call]| <= |p| + 1
  {
    assert p[id := call].Keys == p.Keys + {id};
  }

  lemma Shrinks(a: set<nat>, b: set<nat>)
    requires a <= b
    ensures |a| <= |b|
  {
    assert b == a + (b - a);
  }

  lemma SweepStep(s: State, gone: set<nat>, m: map<nat, Sender>) returns (m': map<nat, Sender>)
    requires Inv(s, m) && gone <= s.pending.Keys && s.phase == Live
    ensures Inv(s.(calls := DropAll(s.calls, set id | id in gone :: s.pending[id]), pending := s.pending - gone), m')
  {
    var l := Calls(s);
    var to := set id | id in gone :: s.pending[id];
    var s' := s.(calls := DropAll(s.calls, to), pending := s.pending - gone);
    forall c | Call(c) in s.commands ensures c !in to {
      assert m[c] == InQueue;
    }
    forall id | id in s.pending && s.pending[id] in to ensures id in gone {
      assert m[s.pending[id]] == InPending(id);
    }
    SettleKeeps(l, Calls(s'), m, to, None);
    assert s'.pending.Keys == s.pending.Keys - gone;
    Shrinks(s'.pending.Keys, s.pending.Keys);
    m' := MarkSpent(m, to);
  }

  /** A reply frame for a pending id settles exactly that id's call, with that frame's result. */
  lemma ReplyStep(s: State, id: nat, body: Body, m: map<nat, Sender>) returns (m': map<nat, Sender>)
    requires Inv(s, m) && id in s.pending && s.phase == Live
    ensures Inv(TakeFrame(s, Reply(Some(id), body), true), m')
  {
    hide LedgerInv;
    var e := [Read(s.socket, Reply(Some(id), body))];
    var l := Calls(s);
    Quiet(l, m, e, s.socket);
    var call := s.pending[id];
    CallFacts(l, m, call);
    var read := l.(trace := l.trace + e);
    var i :| 0 <= i < |s.trace| && s.trace[i] == Wrote(s.socket, id, call);
    assert Accounts(read.trace, i, |s.trace|, call, CallResult(body));
    var s' := TakeFrame(s, Reply(Some(id), body), true);
    SettleKeeps(read, Calls(s'), m, {call}, Some(CallResult(body)));
    assert s'.pending.Keys == s.pending.Keys - {id};
    Shrinks(s'.pending.Keys, s.pending.Keys);
    m' := MarkSpent(m, {call});
  }

  lemma FrameStep(s: State, frame: Frame, ok: bool, m: map<nat, Sender>) returns (m': map<nat, Sender>)
    requires Inv(s, m) && s.phase == Live
    ensures Inv(TakeFrame(s, frame, ok), m')
  {
    hide LedgerInv, Teardown, AnswerAll;
    var l := Calls(s);
    var r := s.(trace := s.trace + [Read(s.socket, frame)]);
    Quiet(l, m, [Read(s.socket, frame)], s.socket);
    m' := m;
    if frame.Reply? && frame.id.Some? && frame.id.value in s.pending {
      m' := ReplyStep(s, frame.id.value, frame.body, m);
    } else if frame.EventFrame? && s.ready && frame.topic.Some? && |s.events| < EVENT_QUEUE {
      Quiet(Calls(r), m, [Emitted(s.socket, Data(frame.topic.value, frame.data))], s.socket);
    } else if frame.Close? {
      Quiet(Calls(r), m, [PauseBegan], s.socket);
    } else if (frame.EventFrame? && s.ready && frame.topic.Some?) || (frame.Ping? && !ok) || frame.BadJson?
              || frame.Gone? {
      m' := TeardownKeeps(r, m);
    }
  }

  lemma LiveCallStep(s: State, expired: bool, ok: bool, m: map<nat, Sender>) returns (m': map<nat, Sender>)
    requires Inv(s, m) && s.phase == Live && s.commands != [] && s.commands[0].Call?
    ensures Inv(TakeLive(s, expired, ok), m')
  {
    hide LedgerInv, Teardown, AnswerAll;
    var l := Calls(s);
    var call := s.commands[0].call;
    if !s.ready || expired || Closed(s.calls, call) || |s.pending| >= MAX_PENDING {
      RefuseKeeps(l, m, call);
      m' := MarkSpent(m, {call});
    } else {
      WriteKeeps(l, m, call);
      m' := m[call := InPending(s.counter + 1)];
      PutSize(s.pending, s.counter + 1, call);
    }
  }

  lemma LiveStep(s: State, expired: bool, ok: bool, m: map<nat, Sender>) returns (m': map<nat, Sender>)
    requires Inv(s, m) && s.phase == Live && s.commands != []
    ensures Inv(TakeLive(s, expired, ok), m')
  {
    hide LedgerInv, Teardown, AnswerAll;
    m' := m;
    if s.commands[0].Call? {
      m' := LiveCallStep(s, expired, ok, m);
    } else {
      PopOtherKeeps(Calls(s), m);
      if s.commands[0].Topics? && s.ready && s.commands[0].topics != s.sentTopics && !ok {
        m' := TeardownKeeps(s.(commands := s.commands[1..], topics := s.commands[0].topics), m);
      }
    }
  }

  lemma QueueStep(s: State, step: Step, m: map<nat, Sender>)
    requires Inv(s, m) && Enabled(s, step)
    requires step.SubmitTopics? || step.SwapLatch? || step.EnqueueResume? || step.TakeEvent?
    ensures Inv(Next(s, step), m)
  {
    hide LedgerInv, TakeLive, TakeFrame, TakeOffline, Halt, Teardown, EndAnnounced, Redial, Submitted, Asked;
    var l := Calls(s);
    match step
    case SubmitTopics(topics) => EnqueueOtherKeeps(l, m, Topics(topics));
    case EnqueueResume =>
      if |s.commands| < COMMAND_QUEUE && s.phase != Stopped {
        EnqueueOtherKeeps(l, m, Resume);
        Quiet(l.(commands := l.commands + [Resume]), m, [ResumeAccepted], l.socket);
      }
    case _ =>
  }

  lemma StepKeeps(s: State, step: Step, m: map<nat, Sender>) returns (m': map<nat, Sender>)
    requires Inv(s, m) && Enabled(s, step)
    ensures Inv(Next(s, step), m')
  {
    if step.Check? || step.Submit? || step.TimeOut? || step.Receive? {
      m' := CallerStep(s, step, m);
    } else if step.SubmitTopics? || step.SwapLatch? || step.EnqueueResume? || step.TakeEvent? {
      QueueStep(s, step, m);
      m' := m;
    } else {
      m' := ActorStep(s, step, m);
    }
  }

  lemma ActorStep(s: State, step: Step, m: map<nat, Sender>) returns (m': map<nat, Sender>)
    requires Inv(s, m) && Enabled(s, step)
    requires !step.Check? && !step.Submit? && !step.TimeOut? && !step.Receive?
    requires !step.SubmitTopics? && !step.SwapLatch? && !step.EnqueueResume? && !step.TakeEvent?
    ensures Inv(Next(s, step), m')
  {
    hide LedgerInv, TakeLive, TakeFrame, TakeOffline, Halt, Teardown, AnswerAll, DropAll;
    var l := Calls(s);
    m' := m;
    match step
    case OfflineCommand => m' := OfflineStep(s, m);
    case DialDone(_) =>
    case LiveCommand(expired, ok) => m' := LiveStep(s, expired, ok, m);
    case SendDone(ok) => if !ok { m' := TeardownKeeps(s, m); }
    case Sweep(gone) => m' := SweepStep(s, gone, m);
    case Heartbeat(ok) => if !ok { m' := TeardownKeeps(s, m); }
    case ReadFrame(frame, ok) => m' := FrameStep(s, frame, ok, m);
    case GreetDone(ok) =>
      if ok && |s.events| < EVENT_QUEUE {
        Quiet(l, m, [Emitted(s.socket, Connected)], l.socket);
      } else {
        m' := TeardownKeeps(s, m);
      }
    case FlushDone => m' := TeardownKeeps(s, m);
    case Announce =>
      Quiet(l, m, [Emitted(s.socket, if s.paused then PowerPaused else Disconnected)], l.socket);
    case BackoffDone => Quiet(l, m, [Dialed(s.socket + 1)], s.socket + 1);
    case Stop => m' := HaltKeeps(s, m);
  }

  // ---- every run ---------------------------------------------------------

  lemma {:induction false} RunKeeps(steps: seq<Step>) returns (m: map<nat, Sender>)
    requires Exec(steps).Some?
    ensures Inv(Exec(steps).value, m)
  {
    if steps == [] {
      m := map[];
    } else {
      var before := steps[..|steps| - 1];
      m := RunKeeps(before);
      m := StepKeeps(Exec(before).value, steps[|steps| - 1], m);
    }
  }
}
