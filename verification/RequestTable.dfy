/** The worker's table of requests as its methods change it (controller.rs). */
module RequestTable {
  import opened Wrappers
  import opened Requests
  import opened RequestProof

  // ---- what the methods rely on ------------------------------------------

  /** Writes in their slots, aborts where they belong, receipts complete. */
  ghost predicate Sound(s: State) {
    Inv(s) && ReceiptsOk(s)
  }

  /** A write on its way in this connection. */
  predicate OnItsWay(s: State, n: nat) {
    n in s.jobs && s.jobs[n].epoch == s.epoch && RealWrite(s.jobs[n].request)
  }

  /** Every write on its way before, but for `answered`, is on its way after, unaborted and in its slot. */
  ghost predicate Spared(s: State, t: State, answered: set<nat>) {
    forall n {:trigger OnItsWay(s, n)} :: OnItsWay(s, n) && n !in answered ==>
      var r := s.jobs[n].request;
      && n in t.jobs && t.jobs[n] == s.jobs[n] && !t.jobs[n].aborted
      && (t.epoch == s.epoch ==> KeyOf(r) in t.slots && t.slots[KeyOf(r)] == Slot(n, r, true, false))
  }

  lemma StepSound(s: State, step: Step)
    requires Sound(s) && Enabled(s, step)
    ensures Sound(Next(s, step))
    ensures Spared(s, Next(s, step), if step.CompleteStep? then {step.number} else {})
  {
    hide ReceiptsOk, Next;
    StepKeeps(s, step);
    StepReceipts(s, step);
    var t := Next(s, step);
    forall n | OnItsWay(s, n) && (step.CompleteStep? ==> n != step.number)
      ensures n in t.jobs && t.jobs[n] == s.jobs[n] && JobOk(s, n) && JobOk(t, n)
    {
      OnlyItsAnswerEndsAWrite(s, step, n);
      assert JobOk(s, n);
    }
  }

  lemma TakeSound(s: State, r: Request)
    requires Sound(s) && Proper(r) && !Blocked(s, r)
    ensures Sound(Take(s, r)) && Spared(s, Take(s, r), {})
  {
    hide Last, Due;
    TakeKeeps(s, r);
    var t := Take(s, r);
    forall n | OnItsWay(s, n)
      ensures n in t.jobs && t.jobs[n] == s.jobs[n] && JobOk(t, n)
    {
      assert JobOk(s, n);
      if KeyOf(r) in s.aborts { assert AbortOk(s, KeyOf(r)); }
    }
  }

  lemma AllAreIdle(slots: map<Key, Slot>)
    ensures forall k :: k in AllIdle(slots) ==> !AllIdle(slots)[k].loading
  {
  }

  class Table {
    var epoch: nat
    var connected: bool
    var actionNumber: nat
    var slots: map<Key, Slot>
    var aborts: map<Key, nat>
    var jobs: map<nat, Job>
    var archiveReceipts: seq<Receipt>
    var touchReceipts: seq<Receipt>
    var finished: seq<Finished>

    ghost function View(): State
      reads this
    {
      State(epoch, connected, actionNumber, slots, aborts, jobs, archiveReceipts, touchReceipts, finished)
    }

    /** What `RequestProof` shows every run keeps. */
    ghost predicate Valid()
      reads this
    {
      Sound(View())
    }

    constructor ()
      ensures View() == Init() && Valid()
    {
      epoch, connected, actionNumber, slots, aborts, jobs := 0, false, 0, map[], map[], map[];
      archiveReceipts, touchReceipts, finished := [], [], [];
      new;
      LastOfNone();
    }

    method Abort(key: Key)
      modifies `aborts, `jobs
      ensures jobs == (if key in old(aborts) then Aborted(old(jobs), old(aborts)[key]) else old(jobs))
      ensures aborts == old(aborts) - {key}
    {
      if key in aborts {
        var n := aborts[key];
        aborts := aborts - {key};
        if n in jobs {
          jobs := jobs[n := jobs[n].(aborted := true)];
        }
      }
    }

    /** The request gets the next number and its slot; a write on its way is never superseded. */
    method Accept(r: Request)
      requires Valid() && Proper(r) && !Blocked(View(), r)
      modifies `actionNumber, `slots, `aborts, `jobs
      ensures View() == Take(old(View()), r)
      ensures Valid() && Spared(old(View()), View(), {})
      ensures slots[KeyOf(r)] == Slot(old(actionNumber) + 1, r, true, false)
    {
      hide Sound, Spared, Blocked;
      TakeSound(View(), r);
      var key := KeyOf(r);
      actionNumber := actionNumber + 1;
      var queued := key in QUEUED;
      if !queued {
        Abort(key);
        aborts := aborts[key := actionNumber];
      }
      slots := slots[key := Slot(actionNumber, r, true, false)];
      jobs := jobs[actionNumber := Job(epoch, r, false)];
    }

    method Request(r: Request, mayCall: bool, onScreen: bool)
      requires Valid() && Proper(r)
      modifies `actionNumber, `slots, `aborts, `jobs
      ensures View() == AskFor(old(View()), r, mayCall, onScreen)
      ensures Valid() && Spared(old(View()), View(), {})
    {
      hide Sound, Spared, Take;
      StepSound(View(), AskStep(r, mayCall, onScreen));
      if !onScreen || (HasMethod(r) && !mayCall) || (!connected && HasMethod(r)) {
        return;
      }
      var key := KeyOf(r);
      if key in GUARDED && key in slots && slots[key].loading && slots[key].request != RewindFiles(true) {
        return;
      }
      Accept(r);
    }

    /** A job is done. Every archive and project-touch request that finished in its connection has its
        receipt, the newest 128 kept. */
    method Complete(n: nat, outcome: Outcome)
      requires Valid() && n in jobs && (outcome == Superseded ==> jobs[n].aborted)
      modifies `slots, `jobs, `archiveReceipts, `touchReceipts, `finished
      ensures View() == Completed(old(View()), n, outcome)
      ensures Valid() && Spared(old(View()), View(), {n})
      ensures archiveReceipts == Last(Due(finished, true)) && touchReceipts == Last(Due(finished, false))
    {
      hide Sound, Spared, Last, Due;
      StepSound(View(), CompleteStep(n, outcome));
      SoundReceipts(Completed(View(), n, outcome));
      var job := jobs[n];
      jobs := jobs - {n};
      finished := finished + [Finished(n, job.request, job.epoch, epoch, outcome)];
      var key := KeyOf(job.request);
      if job.epoch != epoch ||
         (key !in {"project-touch", "archive-set"} && (key !in slots || slots[key].number != n)) {
        return;
      }
      if job.request.SetArchive? {
        archiveReceipts := archiveReceipts + [Receipt(n, job.request, outcome != Fine)];
        if |archiveReceipts| > MAX_RECEIPTS {
          archiveReceipts := archiveReceipts[1..];
        }
      }
      if job.request.TouchProject? {
        touchReceipts := touchReceipts + [Receipt(n, job.request, outcome != Fine)];
        if |touchReceipts| > MAX_RECEIPTS {
          touchReceipts := touchReceipts[1..];
        }
      }
      slots := slots[key := Slot(n, job.request, false, outcome != Fine)];
    }

    /** Every loading slot is told the connection was lost. */
    method IdleSlots()
      modifies `slots
      ensures slots == AllIdle(old(slots))
    {
      ghost var start := slots;
      var left := slots.Keys;
      while left != {}
        invariant left <= start.Keys && slots.Keys == start.Keys
        invariant forall k :: k in slots ==> slots[k] == if k in left then start[k] else Idle(start[k])
        decreases |left|
      {
        var k :| k in left;
        if slots[k].loading {
          slots := slots[k := slots[k].(loading := false, failed := true)];
        }
        left := left - {k};
      }
    }

    method Disconnected()
      requires Valid()
      modifies `epoch, `connected, `slots
      ensures View() == Disconnect(old(View()))
      ensures Valid() && NothingLoading(View())
    {
      hide Sound, Spared, AllIdle;
      StepSound(View(), DisconnectStep);
      AllAreIdle(slots);
      epoch, connected := epoch + 1, false;
      IdleSlots();
    }

    /** Selecting another session forgets what was shown of this one, and recalls no write. */
    method Select()
      requires Valid()
      modifies `slots, `aborts, `jobs
      ensures View() == DropAll(old(View()), SELECT_ORDER)
      ensures Valid() && Spared(old(View()), View(), {})
    {
      hide Sound, Spared;
      StepSound(View(), SelectStep);
      ghost var start := View();
      var i := 0;
      while i < |SELECT_ORDER|
        invariant 0 <= i <= |SELECT_ORDER|
        invariant DropAll(start, SELECT_ORDER) == DropAll(View(), SELECT_ORDER[i..])
      {
        var key := SELECT_ORDER[i];
        assert SELECT_ORDER[i..][0] == key && SELECT_ORDER[i..][1..] == SELECT_ORDER[i + 1..];
        ghost var before := View();
        slots := slots - {key};
        Abort(key);
        assert View() == Drop(before, key);
        i := i + 1;
      }
    }
  }

  lemma SoundReceipts(s: State)
    requires Sound(s)
    ensures s.archiveReceipts == Last(Due(s.finished, true)) && s.touchReceipts == Last(Due(s.finished, false))
  {
  }
}
