/** What asking, answering, losing the hub and leaving a session do to request slots, one at a time
    (controller.rs). */
module RequestLaws {
  import opened Wrappers
  import opened Requests
  import opened RequestProof

  // ---- asking ------------------------------------------------------------

  /** A request is taken unless its view is off screen, its method cannot be called now, or a write of its
      kind is on its way; then it has the next number and its slot, and no other slot moves. */
  lemma AskIsTakenIff(s: State, r: Request, mayCall: bool, onScreen: bool)
    requires Proper(r)
    ensures var t := Next(s, AskStep(r, mayCall, onScreen));
      var key := KeyOf(r);
      if onScreen && (HasMethod(r) ==> mayCall && s.connected) &&
         !(key in s.slots && s.slots[key].loading && key in GUARDED && s.slots[key].request != RewindFiles(true))
      then
        && t.number == s.number + 1 && t.slots == s.slots[key := Slot(t.number, r, true, false)]
        && t.number in t.jobs && t.jobs[t.number] == Job(s.epoch, r, false)
        && t.jobs.Keys == s.jobs.Keys + {t.number}
      else t == s
  {
  }

  // ---- the newest of a kind ----------------------------------------------

  /** A job of a kind that is not queued is aborted, or it is the one its kind would abort next. */
  predicate OneEach(s: State) {
    forall n :: n in s.jobs && KeyOf(s.jobs[n].request) !in QUEUED && !s.jobs[n].aborted ==>
      KeyOf(s.jobs[n].request) in s.aborts && s.aborts[KeyOf(s.jobs[n].request)] == n
  }

  lemma {:induction false} DropAllOneEach(s: State, keys: seq<Key>)
    requires OneEach(s)
    ensures OneEach(DropAll(s, keys))
    decreases |keys|
  {
    if keys != [] { DropAllOneEach(Drop(s, keys[0]), keys[1..]); }
  }

  lemma StepOneEach(s: State, step: Step)
    requires OneEach(s) && Enabled(s, step)
    ensures OneEach(Next(s, step))
  {
    hide Newest, DropAll, AllIdle;
    match step
    case SelectStep => DropAllOneEach(s, SELECT_ORDER);
    case _ =>
  }

  lemma {:induction false} RunOneEach(s: State, steps: seq<Step>)
    requires OneEach(s) && Exec(s, steps).Some?
    ensures OneEach(Exec(s, steps).value)
    decreases |steps|
  {
    hide OneEach, Next, Enabled;
    if steps != [] {
      StepOneEach(s, steps[0]);
      RunOneEach(Next(s, steps[0]), steps[1..]);
    }
  }

  /** In every run, of two requests of a kind that are out at once, and not queued, one is aborted: asking
      again, or leaving, recalls what went before. */
  lemma OnlyTheNewestGoesOn(steps: seq<Step>, n: nat, m: nat)
    requires Exec(Init(), steps).Some?
    requires var s := Exec(Init(), steps).value;
      n != m && n in s.jobs && m in s.jobs && KeyOf(s.jobs[n].request) == KeyOf(s.jobs[m].request) &&
      KeyOf(s.jobs[n].request) !in QUEUED
    ensures var s := Exec(Init(), steps).value; s.jobs[n].aborted || s.jobs[m].aborted
  {
    hide Exec;
    RunOneEach(Init(), steps);
  }

  /** A queued request is never aborted. */
  lemma QueuedRunsToItsEnd(steps: seq<Step>, n: nat)
    requires Exec(Init(), steps).Some?
    requires var s := Exec(Init(), steps).value; n in s.jobs && KeyOf(s.jobs[n].request) in QUEUED
    ensures !Exec(Init(), steps).value.jobs[n].aborted
  {
    hide Exec;
    RunKeeps(Init(), steps);
    assert JobOk(Exec(Init(), steps).value, n);
  }

  // ---- answering ---------------------------------------------------------

  /** An answer settles the slot that waits for it, with its outcome, and no other slot. One that comes after
      its connection, or whose slot has gone to another request, settles none; an archive or project-touch
      answer of its connection always settles its kind's slot. */
  lemma AnswerSettlesItsSlot(s: State, n: nat, outcome: Outcome)
    requires Enabled(s, CompleteStep(n, outcome))
    ensures var t, job := Next(s, CompleteStep(n, outcome)), s.jobs[n];
      var key := KeyOf(job.request);
      && n !in t.jobs && t.jobs.Keys == s.jobs.Keys - {n}
      && (job.epoch != s.epoch ==> t.slots == s.slots)
      && (job.epoch == s.epoch && key in s.slots && s.slots[key].number == n ==>
            t.slots == s.slots[key := Slot(n, job.request, false, outcome == Failed || outcome == Superseded)])
      && (job.epoch == s.epoch && (key in s.slots ==> s.slots[key].number != n) ==>
            if job.request.SetArchive? || job.request.TouchProject?
            then t.slots == s.slots[key := Slot(n, job.request, false, outcome == Failed || outcome == Superseded)]
            else t.slots == s.slots || key in {"archive-set", "project-touch"})
  {
    hide Newest;
  }

  // ---- leaving -----------------------------------------------------------

  /** A lost connection fails every slot that was loading and leaves the others; jobs go on, but of an
      epoch that is over. A new connection leaves the slots as they are. */
  lemma LostConnectionFailsWhatWasLoading(s: State)
    ensures var t := Next(s, DisconnectStep);
      && !t.connected && t.epoch == s.epoch + 1 && t.jobs == s.jobs && t.slots.Keys == s.slots.Keys
      && (forall k :: k in s.slots ==>
            t.slots[k] == if s.slots[k].loading then s.slots[k].(loading := false, failed := true) else s.slots[k])
    ensures Enabled(s, ConnectStep) ==>
      var t := Next(s, ConnectStep);
      t.connected && t.epoch == s.epoch + 1 && t.slots == s.slots && t.jobs == s.jobs
  {
  }

  predicate OfASession(key: Key) {
    key in {"history", "subagent-history", "changes", "diff", "card-diff", "file-preview"}
  }

  lemma {:induction false} DropAllForgets(s: State, keys: seq<Key>)
    requires OneEach(s)
    ensures var t := DropAll(s, keys);
      && t.slots.Keys == s.slots.Keys - (set k | k in keys) && (forall k :: k in t.slots ==> t.slots[k] == s.slots[k])
      && t.jobs.Keys == s.jobs.Keys
      && (forall n :: n in s.jobs && s.jobs[n].aborted ==> t.jobs[n].aborted)
      && (forall n :: n in s.jobs ==> t.jobs[n].request == s.jobs[n].request)
      && (forall n :: n in s.jobs && KeyOf(s.jobs[n].request) in keys && KeyOf(s.jobs[n].request) !in QUEUED ==>
            t.jobs[n].aborted)
    decreases |keys|
  {
    if keys != [] {
      var u := Drop(s, keys[0]);
      assert keys == [keys[0]] + keys[1..];
      DropAllForgets(u, keys[1..]);
      forall n | n in s.jobs && KeyOf(s.jobs[n].request) == keys[0] && KeyOf(s.jobs[n].request) !in QUEUED
        ensures DropAll(s, keys).jobs[n].aborted
      {
        if !s.jobs[n].aborted { assert s.aborts[keys[0]] == n && u.jobs[n].aborted; }
      }
    }
  }

  /** Selecting another session empties the slots of what the session shows, recalls what they waited for,
      and touches no other slot. */
  lemma SelectForgets(s: State)
    requires OneEach(s)
    ensures var t := Next(s, SelectStep);
      && (forall k :: k in t.slots <==> k in s.slots && !OfASession(k))
      && (forall k :: k in t.slots ==> t.slots[k] == s.slots[k])
      && (forall n :: n in s.jobs && OfASession(KeyOf(s.jobs[n].request)) ==> n in t.jobs && t.jobs[n].aborted)
  {
    DropAllForgets(s, SELECT_ORDER);
    forall k ensures k in SELECT_ORDER <==> OfASession(k) { InSelectOrder(k); }
  }

  lemma InSelectOrder(k: Key)
    ensures k in SELECT_ORDER <==> OfASession(k)
  {
  }
}
