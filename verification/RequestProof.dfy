/** Writes are never recalled, receipts never lost. */
module RequestProof {
  import opened Wrappers
  import opened Requests

  // Every archive and project-touch request of a connection leaves its own receipt.

  /** A write that changes something on the hub. */
  predicate RealWrite(r: Request) {
    KeyOf(r) in GUARDED && r != RewindFiles(true)
  }

  predicate JobOk(s: State, n: nat)
    requires n in s.jobs
  {
    var job := s.jobs[n];
    && n <= s.number && job.epoch <= s.epoch && Proper(job.request)
    && (KeyOf(job.request) in QUEUED ==> !job.aborted)
    && (job.epoch == s.epoch && RealWrite(job.request) ==>
          && KeyOf(job.request) in s.slots && s.slots[KeyOf(job.request)] == Slot(n, job.request, true, false)
          && !job.aborted)
  }

  predicate AbortOk(s: State, k: Key)
    requires k in s.aborts
  {
    s.aborts[k] <= s.number && k !in QUEUED && (s.aborts[k] in s.jobs ==> KeyOf(s.jobs[s.aborts[k]].request) == k)
  }

  predicate Inv(s: State) {
    && (forall n {:trigger JobOk(s, n)} :: n in s.jobs ==> JobOk(s, n))
    && (forall k {:trigger AbortOk(s, k)} :: k in s.aborts ==> AbortOk(s, k))
  }

  lemma TakeKeeps(s: State, r: Request)
    requires Inv(s) && Proper(r) && !Blocked(s, r)
    ensures Inv(Take(s, r))
  {
    var t := Take(s, r);
    var key := KeyOf(r);
    forall n | n in t.jobs ensures JobOk(t, n) {
      if n in s.jobs {
        assert JobOk(s, n);
        if key in s.aborts && s.aborts[key] == n { assert AbortOk(s, key); }
      }
    }
    forall k | k in t.aborts ensures AbortOk(t, k) {
      if k in s.aborts { assert AbortOk(s, k); }
    }
  }

  lemma CompleteKeeps(s: State, n: nat, outcome: Outcome)
    requires Inv(s) && n in s.jobs
    ensures Inv(Completed(s, n, outcome))
  {
    hide Newest;
    var t := Completed(s, n, outcome);
    var key := KeyOf(s.jobs[n].request);
    assert JobOk(s, n);
    forall m | m in t.jobs ensures JobOk(t, m) {
      assert JobOk(s, m);
    }
    forall k | k in t.aborts ensures AbortOk(t, k) {
      assert AbortOk(s, k);
    }
  }

  lemma DropKeeps(s: State, key: Key)
    requires Inv(s) && key !in GUARDED
    ensures Inv(Drop(s, key))
  {
    var t := Drop(s, key);
    forall n | n in t.jobs ensures JobOk(t, n) {
      assert JobOk(s, n);
      if key in s.aborts { assert AbortOk(s, key); }
    }
    forall k | k in t.aborts ensures AbortOk(t, k) {
      assert AbortOk(s, k);
    }
  }

  lemma {:induction false} DropAllKeeps(s: State, keys: seq<Key>)
    requires Inv(s) && forall k :: k in keys ==> k !in GUARDED
    ensures Inv(DropAll(s, keys))
    decreases |keys|
  {
    hide Inv, Drop;
    if keys != [] {
      DropKeeps(s, keys[0]);
      DropAllKeeps(Drop(s, keys[0]), keys[1..]);
    }
  }

  lemma EpochKeeps(s: State, t: State)
    requires Inv(s) && t.epoch == s.epoch + 1 && t.jobs == s.jobs && t.aborts == s.aborts && t.number == s.number
    ensures Inv(t)
  {
    forall n | n in t.jobs ensures JobOk(t, n) {
      assert JobOk(s, n);
    }
    forall k | k in t.aborts ensures AbortOk(t, k) {
      assert AbortOk(s, k);
    }
  }

  lemma NumberKeeps(s: State)
    requires Inv(s)
    ensures Inv(s.(number := s.number + 1))
  {
    var t := s.(number := s.number + 1);
    forall n | n in t.jobs ensures JobOk(t, n) {
      assert JobOk(s, n);
    }
    forall k | k in t.aborts ensures AbortOk(t, k) {
      assert AbortOk(s, k);
    }
  }

  lemma StepKeeps(s: State, step: Step)
    requires Inv(s) && Enabled(s, step)
    ensures Inv(Next(s, step))
  {
    hide Inv, Take, Completed, DropAll, AllIdle;
    match step
    case AskStep(r, mayCall, onScreen) => if !Refused(s, r, mayCall, onScreen) { TakeKeeps(s, r); }
    case CompleteStep(n, outcome) => CompleteKeeps(s, n, outcome);
    case ConnectStep => EpochKeeps(s, Connect(s));
    case DisconnectStep => EpochKeeps(s, Disconnect(s));
    case SelectStep => DropAllKeeps(s, SELECT_ORDER);
    case NumberStep => NumberKeeps(s);
  }

  lemma {:induction false} RunKeeps(s: State, steps: seq<Step>)
    requires Inv(s) && Exec(s, steps).Some?
    ensures Inv(Exec(s, steps).value)
    decreases |steps|
  {
    hide Inv, Next, Enabled;
    if steps != [] {
      StepKeeps(s, steps[0]);
      RunKeeps(Next(s, steps[0]), steps[1..]);
    }
  }

  /** While its connection lasts, a write on its way keeps its slot and is never aborted. */
  lemma {:induction false} WritesAreNeverRecalled(steps: seq<Step>, n: nat)
    requires Exec(Init(), steps).Some?
    requires var s := Exec(Init(), steps).value;
      n in s.jobs && s.jobs[n].epoch == s.epoch && RealWrite(s.jobs[n].request)
    ensures var s := Exec(Init(), steps).value;
      var r := s.jobs[n].request;
      KeyOf(r) in s.slots && s.slots[KeyOf(r)] == Slot(n, r, true, false) && !s.jobs[n].aborted
  {
    hide Exec;
    RunKeeps(Init(), steps);
    assert JobOk(Exec(Init(), steps).value, n);
  }

  /** No step but its own answer ends it, and that answer is the hub's: never "superseded". */
  lemma OnlyItsAnswerEndsAWrite(s: State, step: Step, n: nat)
    requires Inv(s) && Enabled(s, step) && n in s.jobs && s.jobs[n].epoch == s.epoch && RealWrite(s.jobs[n].request)
    ensures step == CompleteStep(n, Fine) || step == CompleteStep(n, Failed) ||
      (n in Next(s, step).jobs && Next(s, step).jobs[n] == s.jobs[n])
    ensures step.CompleteStep? && step.number == n ==>
      var key := KeyOf(s.jobs[n].request);
      && key in Next(s, step).slots
      && Next(s, step).slots[key] == Slot(n, s.jobs[n].request, false, step.outcome == Failed)
  {
    hide Newest, DropAll, AllIdle;
    assert JobOk(s, n);
    match step
    case AskStep(r, _, _) =>
      var key := KeyOf(r);
      if key in s.aborts { assert AbortOk(s, key); }
    case SelectStep => DropAllSpares(s, SELECT_ORDER, n);
    case _ =>
  }

  lemma {:induction false} DropAllSpares(s: State, keys: seq<Key>, n: nat)
    requires Inv(s) && n in s.jobs && KeyOf(s.jobs[n].request) in GUARDED && forall k :: k in keys ==> k !in GUARDED
    ensures n in DropAll(s, keys).jobs && DropAll(s, keys).jobs[n] == s.jobs[n]
    decreases |keys|
  {
    if keys != [] {
      DropKeeps(s, keys[0]);
      if keys[0] in s.aborts { assert AbortOk(s, keys[0]); }
      DropAllSpares(Drop(s, keys[0]), keys[1..], n);
    }
  }

  // ---- receipts ----------------------------------------------------------

  /** The receipts due: one for each request of the kind that finished in the connection that accepted it. */
  function Due(finished: seq<Finished>, archive: bool): seq<Receipt> {
    if finished == [] then []
    else
      var f := finished[|finished| - 1];
      Due(finished[..|finished| - 1], archive) +
      if f.accepted == f.epoch && (if archive then f.request.SetArchive? else f.request.TouchProject?)
      then [Receipt(f.number, f.request, f.outcome != Fine)] else []
  }

  function Last(receipts: seq<Receipt>): seq<Receipt> {
    if |receipts| > MAX_RECEIPTS then receipts[|receipts| - MAX_RECEIPTS..] else receipts
  }

  lemma LastOneMore(all: seq<Receipt>, r: Receipt)
    ensures Newest(Last(all), r) == Last(all + [r])
  {
    var x, y := Newest(Last(all), r), Last(all + [r]);
    if |all| > MAX_RECEIPTS {
      assert Last(all) + [r] == (all + [r])[|all| - MAX_RECEIPTS..];
    }
  }

  lemma DueOneMore(finished: seq<Finished>, f: Finished, archive: bool)
    ensures Due(finished + [f], archive) == Due(finished, archive) +
      if f.accepted == f.epoch && (if archive then f.request.SetArchive? else f.request.TouchProject?)
      then [Receipt(f.number, f.request, f.outcome != Fine)] else []
  {
    assert (finished + [f])[..|finished|] == finished;
  }

  predicate ReceiptsOk(s: State) {
    && s.archiveReceipts == Last(Due(s.finished, true)) && s.touchReceipts == Last(Due(s.finished, false))
    && (forall i :: 0 <= i < |s.finished| ==> s.finished[i].number !in s.jobs && s.finished[i].number <= s.number)
    && (forall i, j :: 0 <= i < j < |s.finished| ==> s.finished[i].number != s.finished[j].number)
    && (forall i :: 0 <= i < |s.finished| && KeyOf(s.finished[i].request) in QUEUED ==>
          s.finished[i].outcome != Superseded)
  }

  lemma CompleteReceipts(s: State, n: nat, outcome: Outcome)
    requires Inv(s) && ReceiptsOk(s) && Enabled(s, CompleteStep(n, outcome))
    ensures ReceiptsOk(Completed(s, n, outcome))
  {
    hide Newest, Last, Due;
    assert JobOk(s, n);
    var job := s.jobs[n];
    var f := Finished(n, job.request, job.epoch, s.epoch, outcome);
    DueOneMore(s.finished, f, true);
    DueOneMore(s.finished, f, false);
    var receipt := Receipt(n, job.request, outcome != Fine);
    LastOneMore(Due(s.finished, true), receipt);
    LastOneMore(Due(s.finished, false), receipt);
    assert Due(s.finished, true) + [] == Due(s.finished, true) && Due(s.finished, false) + [] == Due(s.finished, false);
  }

  lemma StepReceipts(s: State, step: Step)
    requires Inv(s) && ReceiptsOk(s) && Enabled(s, step)
    ensures ReceiptsOk(Next(s, step))
  {
    hide Newest, Last, Due, AllIdle, Completed, DropAll;
    match step
    case CompleteStep(n, outcome) => CompleteReceipts(s, n, outcome);
    case SelectStep => DropAllReceipts(s, SELECT_ORDER);
    case _ =>
  }

  lemma {:induction false} DropAllReceipts(s: State, keys: seq<Key>)
    ensures var t := DropAll(s, keys);
      t.jobs.Keys == s.jobs.Keys && t.finished == s.finished && t.number == s.number &&
      t.archiveReceipts == s.archiveReceipts && t.touchReceipts == s.touchReceipts
    decreases |keys|
  {
    if keys != [] { DropAllReceipts(Drop(s, keys[0]), keys[1..]); }
  }

  lemma {:induction false} RunReceipts(s: State, steps: seq<Step>)
    requires Inv(s) && ReceiptsOk(s) && Exec(s, steps).Some?
    ensures ReceiptsOk(Exec(s, steps).value)
    decreases |steps|
  {
    hide Inv, Next, Enabled, ReceiptsOk;
    if steps != [] {
      StepKeeps(s, steps[0]);
      StepReceipts(s, steps[0]);
      RunReceipts(Next(s, steps[0]), steps[1..]);
    }
  }

  /** In any completion order, the receipts are the newest 128 due, each of its own request and number. */
  lemma {:induction false} EveryCompletionLeavesItsReceipt(steps: seq<Step>)
    requires Exec(Init(), steps).Some?
    ensures var s := Exec(Init(), steps).value;
      && s.archiveReceipts == Last(Due(s.finished, true)) && s.touchReceipts == Last(Due(s.finished, false))
      && (forall i, j :: 0 <= i < j < |s.finished| ==> s.finished[i].number != s.finished[j].number)
      && (forall i :: 0 <= i < |s.finished| && KeyOf(s.finished[i].request) in QUEUED ==>
            s.finished[i].outcome != Superseded)
  {
    hide Exec, Last;
    assert ReceiptsOk(Init()) by { assert Last([]) == [] by { LastOfNone(); } }
    RunReceipts(Init(), steps);
  }

  lemma LastOfNone()
    ensures Last([]) == []
  {
  }

  // ---- a slot that never settles -----------------------------------------

  /** A write asked for while the hub was away and still out when it came back strands its slot: its answer is
      dropped, and until the connection ends no other of its kind is taken. */
  lemma WriteAcrossAConnectionStrandsItsSlot(s: State, r: Request, outcome: Outcome, later: Request, mayCall: bool)
    requires Inv(s) && !s.connected && Proper(r) && RealWrite(r) && !HasMethod(r) && !Blocked(s, r)
    requires KeyOf(later) == KeyOf(r) && outcome != Superseded
    ensures var asked := AskFor(s, r, mayCall, true);
      var n := asked.number;
      n in asked.jobs && Enabled(asked, ConnectStep) && Enabled(Connect(asked), CompleteStep(n, outcome)) &&
      var answered := Completed(Connect(asked), n, outcome);
      && n !in answered.jobs && answered.slots[KeyOf(r)] == Slot(n, r, true, false)
      && AskFor(answered, later, mayCall, true) == answered
  {
    hide Newest;
  }

  /** Every loading slot has its answer to come, in this connection. */
  predicate Answerable(s: State) {
    forall k :: k in s.slots && s.slots[k].loading ==>
      && s.slots[k].number in s.jobs && s.jobs[s.slots[k].number].epoch == s.epoch
      && s.jobs[s.slots[k].number].request == s.slots[k].request && KeyOf(s.slots[k].request) == k
  }

  predicate NothingLoading(s: State) {
    forall k :: k in s.slots ==> !s.slots[k].loading
  }

  /** Stranding needs exactly that: a connection that starts with something loading. */
  lemma OnlyAConnectionStrands(s: State, step: Step)
    requires Inv(s) && Answerable(s) && Enabled(s, step)
    ensures Answerable(Next(s, step)) <==> !(step.ConnectStep? && !NothingLoading(s))
  {
    hide Newest, DropAll, Inv;
    match step
    case AskStep(r, mayCall, onScreen) => if !Refused(s, r, mayCall, onScreen) { TakeAnswers(s, r); }
    case CompleteStep(n, outcome) => CompleteAnswers(s, n, outcome);
    case SelectStep => DropAllAnswers(s, SELECT_ORDER);
    case ConnectStep =>
      if !NothingLoading(s) {
        var k :| k in s.slots && s.slots[k].loading;
        assert Connect(s).slots[k].loading;
      }
    case _ =>
  }

  lemma TakeAnswers(s: State, r: Request)
    requires Inv(s) && Answerable(s)
    ensures Answerable(Take(s, r))
  {
    var t := Take(s, r);
    forall n | n in s.jobs ensures n < t.number {
      assert JobOk(s, n);
    }
  }

  lemma CompleteAnswers(s: State, n: nat, outcome: Outcome)
    requires Inv(s) && Answerable(s) && n in s.jobs
    ensures Answerable(Completed(s, n, outcome))
  {
    hide Newest;
  }

  lemma {:induction false} DropAllAnswers(s: State, keys: seq<Key>)
    requires Answerable(s)
    ensures Answerable(DropAll(s, keys))
    decreases |keys|
  {
    if keys != [] { DropAllAnswers(Drop(s, keys[0]), keys[1..]); }
  }
}
