/**
 What every run of the promise tracker guarantees: bounded settlement, first event wins, early
 and late replies alike, and bounded retention of replies nobody asked for.
 */
module Settlement {
  import opened Wrappers
  import opened Messages
  import opened Deferral

  // ---------- the invariant ----------

  /** The timer that rejects the cell when its time is up. */
  predicate HasOwnTimer(t: Tracker, c: nat)
    requires c < |t.cells|
  {
    exists k | k in t.timers :: t.timers[k] == Timer(t.cells[c].born + Delay(t.timeout), RejectCell(c))
  }

  predicate CellsHaveTimers(t: Tracker) {
    forall c: nat | c < |t.cells| ::
      && t.cells[c].born <= t.now
      && (t.cells[c].outcome.Pending? ==> HasOwnTimer(t, c))
  }

  /** An entry's timer, while armed, is its own cell's or its own expiry. */
  predicate EntryOk(t: Tracker, id: string)
    requires id in t.promises
  {
    var e := t.promises[id];
    && e.cell < |t.cells| && t.cells[e.cell].owner == id
    && (e.live && e.timer in t.timers ==>
          t.timers[e.timer] == Timer(t.cells[e.cell].born + Delay(t.timeout), RejectCell(e.cell)))
    && (!e.live ==>
          && !t.cells[e.cell].outcome.Pending?
          && (e.timer in t.timers ==>
                t.timers[e.timer] == Timer(t.cells[e.cell].born + Delay(2 * t.timeout), DropEntry(id))))
    && (e.live && t.cells[e.cell].outcome.Pending? ==> e.timer in t.timers)
    && e.timer < t.nextTimer
  }

  predicate TimerOk(t: Tracker, k: nat)
    requires k in t.timers
  {
    && k < t.nextTimer && t.timers[k].due >= t.now
    && (t.timers[k].action.RejectCell? ==> t.timers[k].action.cell < |t.cells|)
  }

  predicate Inv(t: Tracker) {
    && CellsHaveTimers(t)
    && (forall id | id in t.promises :: EntryOk(t, id))
    && (forall k | k in t.timers :: TimerOk(t, k))
    // an armed rejection is the only one of its cell
    && (forall j, k | j in t.timers && k in t.timers ::
          t.timers[j].action.RejectCell? && t.timers[j].action == t.timers[k].action ==> j == k)
  }

  lemma AfterEventInv(t: Tracker, id: string, o: Outcome)
    requires Inv(t) && !o.Pending?
    ensures Inv(AfterEvent(t, id, o))
  {
    var u := AfterEvent(t, id, o);
    if id in t.promises {
      var e := t.promises[id];
      assert EntryOk(t, id);
      forall c: nat | c < |u.cells|
        ensures u.cells[c].born <= u.now && (u.cells[c].outcome.Pending? ==> HasOwnTimer(u, c))
      {
        if u.cells[c].outcome.Pending? {
          var k :| k in t.timers && t.timers[k] == Timer(t.cells[c].born + Delay(t.timeout), RejectCell(c));
          assert k in u.timers;
        }
      }
      forall i | i in u.promises ensures EntryOk(u, i) {
        assert EntryOk(t, i);
      }
    } else {
      NewEntryInv(t, u, id);
    }
    forall k | k in u.timers ensures TimerOk(u, k) {
      assert k in t.timers ==> TimerOk(t, k);
    }
  }

  /** Adding a cell with its entry and timer, whichever kind it is. */
  lemma NewEntryInv(t: Tracker, u: Tracker, id: string)
    requires Inv(t) && id !in t.promises
    requires u.now == t.now && u.timeout == t.timeout && u.nextTimer == t.nextTimer + 1
    requires |u.cells| == |t.cells| + 1 && u.cells[..|t.cells|] == t.cells
    requires u.cells[|t.cells|].owner == id && u.cells[|t.cells|].born == t.now
    requires u.promises == t.promises[id := Tracked(|t.cells|, u.cells[|t.cells|].outcome.Pending?, t.nextTimer)]
    requires u.timers == t.timers[t.nextTimer :=
               if u.cells[|t.cells|].outcome.Pending? then Timer(t.now + Delay(t.timeout), RejectCell(|t.cells|))
               else Timer(t.now + Delay(2 * t.timeout), DropEntry(id))]
    ensures Inv(u)
  {
    forall k | k in t.timers ensures k < t.nextTimer && k in u.timers && u.timers[k] == t.timers[k] {
      assert TimerOk(t, k);
    }
    forall c: nat | c < |u.cells|
      ensures u.cells[c].born <= u.now && (u.cells[c].outcome.Pending? ==> HasOwnTimer(u, c))
    {
      if c < |t.cells| {
        assert u.cells[c] == u.cells[..|t.cells|][c] == t.cells[c];
        if u.cells[c].outcome.Pending? {
          var k :| k in t.timers && t.timers[k] == Timer(t.cells[c].born + Delay(t.timeout), RejectCell(c));
          assert k in u.timers;
        }
      } else if u.cells[c].outcome.Pending? {
        assert t.nextTimer in u.timers;
      }
    }
    forall i | i in u.promises ensures EntryOk(u, i) {
      if i != id {
        assert EntryOk(t, i);
        var e := t.promises[i];
        assert u.cells[e.cell] == u.cells[..|t.cells|][e.cell] == t.cells[e.cell];
      }
    }
    forall k | k in u.timers ensures TimerOk(u, k) {
      assert k in t.timers ==> TimerOk(t, k);
    }
  }

  lemma AfterCancelSetInv(t: Tracker, ids: set<string>, message: Option<string>)
    requires Inv(t)
    ensures Inv(AfterCancelSet(t, ids, message))
  {
    var u := AfterCancelSet(t, ids, message);
    forall c: nat | c < |u.cells|
      ensures u.cells[c].born <= u.now && (u.cells[c].outcome.Pending? ==> HasOwnTimer(u, c))
    {
      if u.cells[c].outcome.Pending? {
        var k :| k in t.timers && t.timers[k] == Timer(t.cells[c].born + Delay(t.timeout), RejectCell(c));
        assert !HoldsCell(t, ids, c);
        forall id | id in t.promises && id in ids ensures t.promises[id].timer != k {
          assert EntryOk(t, id);
        }
        assert k in u.timers;
      }
    }
    forall i | i in u.promises ensures EntryOk(u, i) {
      assert EntryOk(t, i);
      var e := t.promises[i];
      if e.live && u.cells[e.cell].outcome.Pending? {
        forall id | id in t.promises && id in ids ensures t.promises[id].timer != e.timer {
          assert EntryOk(t, id);
        }
      }
    }
    forall k | k in u.timers ensures TimerOk(u, k) {
      assert TimerOk(t, k);
    }
  }

  lemma AfterCancelIsSet(t: Tracker, id: string, message: Option<string>)
    requires Inv(t)
    ensures AfterCancel(t, id, message) == AfterCancelSet(t, {id}, message)
  {
    var none := AfterCancelSet(t, {}, message);
    assert none.promises == t.promises && none.timers == t.timers && none.cells == t.cells;
    if id in t.promises {
      CancelExtends(t, {}, id, message);
      assert {} + {id} == {id};
    } else {
      var u := AfterCancelSet(t, {id}, message);
      assert u.promises == t.promises && u.timers == t.timers && u.cells == t.cells;
    }
  }

  lemma AfterFireInv(t: Tracker, k: nat)
    requires Inv(t) && Enabled(t, Fire(k))
    ensures Inv(AfterFire(t, k))
  {
    var u := AfterFire(t, k);
    assert TimerOk(t, k);
    forall c: nat | c < |u.cells|
      ensures u.cells[c].born <= u.now && (u.cells[c].outcome.Pending? ==> HasOwnTimer(u, c))
    {
      if u.cells[c].outcome.Pending? {
        var j :| j in t.timers && t.timers[j] == Timer(t.cells[c].born + Delay(t.timeout), RejectCell(c));
        assert j in u.timers;
      }
    }
    forall i | i in u.promises ensures EntryOk(u, i) {
      assert EntryOk(t, i);
    }
    forall j | j in u.timers ensures TimerOk(u, j) {
      assert TimerOk(t, j);
    }
  }

  lemma StepInv(t: Tracker, s: Step)
    requires Inv(t) && Enabled(t, s)
    ensures Inv(Apply(t, s))
  {
    match s
    case Promise(id) =>
      if id !in t.promises {
        NewEntryInv(t, Apply(t, s), id);
      }
    case Response(e) => AfterEventInv(t, e.messageId, Fulfilled(e));
    case Failure(e) => AfterEventInv(t, e.messageId, Rejected(ErrorEvent(e)));
    case Cancel(id, m) =>
      AfterCancelIsSet(t, id, m);
      AfterCancelSetInv(t, {id}, m);
    case CancelAll(m) => AfterCancelSetInv(t, t.promises.Keys, m);
    case Delete(id) => SameButFewerEntriesInv(t, Apply(t, s));
    case Tick => TickInv(t);
    case Fire(k) => AfterFireInv(t, k);
  }

  lemma SameButFewerEntriesInv(t: Tracker, u: Tracker)
    requires Inv(t) && u == t.(promises := u.promises)
    requires forall i | i in u.promises :: i in t.promises && u.promises[i] == t.promises[i]
    ensures Inv(u)
  {
    forall c: nat | c < |u.cells| ensures u.cells[c].outcome.Pending? ==> HasOwnTimer(u, c) {
      assert t.cells[c].outcome.Pending? ==> HasOwnTimer(t, c);
    }
    forall i | i in u.promises ensures EntryOk(u, i) {
      assert EntryOk(t, i);
    }
    forall k | k in u.timers ensures TimerOk(u, k) {
      assert TimerOk(t, k);
    }
  }

  lemma TickInv(t: Tracker)
    requires Inv(t) && Enabled(t, Tick)
    ensures Inv(Apply(t, Tick))
  {
    var u := Apply(t, Tick);
    forall c: nat | c < |u.cells| ensures u.cells[c].outcome.Pending? ==> HasOwnTimer(u, c) {
      assert t.cells[c].outcome.Pending? ==> HasOwnTimer(t, c);
    }
    forall i | i in u.promises ensures EntryOk(u, i) {
      assert EntryOk(t, i);
    }
    forall k | k in u.timers ensures TimerOk(u, k) {
      assert TimerOk(t, k);
    }
  }

  lemma {:induction false} RunInv(t: Tracker, steps: seq<Step>)
    requires Inv(t) && IsRun(t, steps)
    ensures Inv(Run(t, steps))
    ensures Run(t, steps).timeout == t.timeout && Run(t, steps).now >= t.now
    decreases |steps|
  {
    if steps != [] {
      var n := |steps| - 1;
      RunInv(t, steps[..n]);
      StepInv(Run(t, steps[..n]), steps[n]);
    }
  }

  // ---------- bounded settlement ----------

  /**
   In every state of every run, a promise older than the timeout is settled; one exactly that old
   that is still pending is about to be rejected, before time moves on.
   */
  lemma BoundedSettlement(timeout: nat, steps: seq<Step>, c: nat)
    requires IsRun(Init(timeout), steps) && c < |Run(Init(timeout), steps).cells|
    ensures var t := Run(Init(timeout), steps);
            t.cells[c].outcome.Pending? ==>
              && t.now <= t.cells[c].born + Delay(timeout)
              && (t.now == t.cells[c].born + Delay(timeout) ==>
                    && !Enabled(t, Tick)
                    && exists k :: Enabled(t, Fire(k)) && !Apply(t, Fire(k)).cells[c].outcome.Pending?)
  {
    var t := Run(Init(timeout), steps);
    RunInv(Init(timeout), steps);
    if t.cells[c].outcome.Pending? {
      var k :| k in t.timers && t.timers[k] == Timer(t.cells[c].born + Delay(t.timeout), RejectCell(c));
      assert TimerOk(t, k);
      if t.now == t.cells[c].born + Delay(timeout) {
        assert Enabled(t, Fire(k)) && !Apply(t, Fire(k)).cells[c].outcome.Pending?;
      }
    }
  }

  /** A settled promise keeps its outcome, and every promise its id and birth. */
  lemma {:induction false} SettledForever(t: Tracker, steps: seq<Step>, c: nat)
    requires IsRun(t, steps) && c < |t.cells|
    ensures c < |Run(t, steps).cells|
    ensures !t.cells[c].outcome.Pending? ==> Run(t, steps).cells[c] == t.cells[c]
    ensures Run(t, steps).cells[c].owner == t.cells[c].owner && Run(t, steps).cells[c].born == t.cells[c].born
    decreases |steps|
  {
    if steps != [] {
      SettledForever(t, steps[..|steps| - 1], c);
    }
  }

  // ---------- in milliseconds ----------

  /** Every armed rejection is due when its promise's time is up, and a timed out promise had its time. */
  predicate OnTime(t: Tracker) {
    && (forall k | k in t.timers && t.timers[k].action.RejectCell? ::
          && t.timers[k].action.cell < |t.cells|
          && t.timers[k].due == t.cells[t.timers[k].action.cell].born + Delay(t.timeout))
    && forall c | 0 <= c < |t.cells| && t.cells[c].outcome == Rejected(TimedOut) ::
         t.now >= t.cells[c].born + Delay(t.timeout)
  }

  lemma OnTimeStep(t: Tracker, s: Step)
    requires OnTime(t) && Enabled(t, s)
    ensures OnTime(Apply(t, s))
  {
    hide Delay;
  }

  lemma {:induction false} OnTimeRun(timeout: nat, steps: seq<Step>)
    requires IsRun(Init(timeout), steps)
    ensures OnTime(Run(Init(timeout), steps)) && Run(Init(timeout), steps).timeout == timeout
    decreases |steps|
  {
    if steps != [] {
      OnTimeRun(timeout, steps[..|steps| - 1]);
      hide OnTime;
      OnTimeStep(Run(Init(timeout), steps[..|steps| - 1]), steps[|steps| - 1]);
    }
  }

  /** The timeout as the timer facility grants it: what does not fit becomes one millisecond. */
  lemma GrantedTimeouts(d: nat)
    ensures 1 <= d <= 2147483647 ==> Delay(d) == d
    ensures d == 0 || d > 2147483647 ==> Delay(d) == 1
  {
  }

  /**
   With any timeout of one to 2147483647 milliseconds a promise that timed out was given all of it,
   and one that is pending when it is over is rejected before time moves.
   */
  lemma TimeoutsTakeTheirTime(timeout: nat, steps: seq<Step>, c: nat)
    requires 1 <= timeout <= 2147483647
    requires IsRun(Init(timeout), steps) && c < |Run(Init(timeout), steps).cells|
    ensures var t := Run(Init(timeout), steps);
            && (t.cells[c].outcome == Rejected(TimedOut) ==> t.now >= t.cells[c].born + timeout)
            && (t.cells[c].outcome.Pending? ==>
                  && t.now <= t.cells[c].born + timeout
                  && (t.now == t.cells[c].born + timeout ==>
                        && !Enabled(t, Tick)
                        && exists k :: Enabled(t, Fire(k)) && Apply(t, Fire(k)).cells[c].outcome == Rejected(TimedOut)))
  {
    OnTimeRun(timeout, steps);
    BoundedSettlement(timeout, steps, c);
    hide Run, IsRun;
  }

  /** A tracker that is given no timeout takes three seconds. */
  lemma DefaultIsThreeSeconds(t: Tracker, id: string)
    requires t == Init(DEFAULT_TIMEOUT)
    ensures var u := Apply(t, Promise(id));
            id in u.promises && u.timers == map[u.promises[id].timer := Timer(3000, RejectCell(0))]
  {
  }

  /** What each call makes of a promise that has just been asked for. */
  lemma LifeOfAPromise(t: Tracker, e: Event, message: Option<string>)
    requires e.messageId !in t.promises
    ensures var id := e.messageId; var u := Apply(t, Promise(id));
            var c, k := |t.cells|, t.nextTimer;
            && HandedOut(t, id) == HandedOut(u, id) == c && u.cells == t.cells + [Cell(id, t.now, Pending)]
            && u.timers == t.timers[k := Timer(t.now + Delay(t.timeout), RejectCell(c))]
            && Apply(u, Promise(id)) == u
            && Apply(u, Response(e)) == u.(cells := t.cells + [Cell(id, t.now, Fulfilled(e))], timers := u.timers - {k})
            && Apply(u, Failure(e)).cells == t.cells + [Cell(id, t.now, Rejected(ErrorEvent(e)))]
            && Apply(u, Failure(e)).timers == u.timers - {k} && Apply(u, Failure(e)).promises == u.promises
            && Apply(u, Cancel(id, message)).cells == t.cells + [Cell(id, t.now, Rejected(Cancelled(message)))]
            && Apply(u, Cancel(id, message)).timers == u.timers - {k}
            && Apply(u, Cancel(id, message)).promises == u.promises - {id}
            && Apply(u, Delete(id)) == u.(promises := u.promises - {id})
            && (Enabled(u, Fire(k)) ==> Apply(u, Fire(k)).cells == t.cells + [Cell(id, t.now, Rejected(TimedOut))])
  {
    hide Delay;
  }

  /** What an event leaves behind that nobody has asked for. */
  lemma LifeOfAnEarlyReply(t: Tracker, e: Event)
    requires e.messageId !in t.promises
    ensures var id := e.messageId; var u, v := Apply(t, Response(e)), Apply(t, Failure(e));
            var c, k := |t.cells|, t.nextTimer;
            && HandedOut(u, id) == HandedOut(v, id) == c
            && u.cells == t.cells + [Cell(id, t.now, Fulfilled(e))]
            && v.cells == t.cells + [Cell(id, t.now, Rejected(ErrorEvent(e)))]
            && u.timers == v.timers == t.timers[k := Timer(t.now + Delay(2 * t.timeout), DropEntry(id))]
            && Apply(u, Promise(id)) == u && Apply(u, Failure(e)).cells == u.cells
            && (Enabled(u, Fire(k)) ==> Apply(u, Fire(k)).promises == u.promises - {id})
  {
    hide Delay;
  }

  // ---------- first event wins ----------

  /** The steps that take an entry away from `id` by hand. */
  predicate Removes(s: Step, id: string) {
    match s
    case Cancel(i, _) => i == id
    case CancelAll(_) => true
    case Delete(i) => i == id
    case _ => false
  }

  predicate Undisturbed(steps: seq<Step>, id: string) {
    forall i | 0 <= i < |steps| :: !Removes(steps[i], id)
  }

  /** No expiry timer for `id` is armed. */
  predicate NoStaleExpiry(t: Tracker, id: string) {
    forall k | k in t.timers :: t.timers[k].action != DropEntry(id)
  }

  /** No expiry timer for `id` is due at or before the time given. */
  predicate NoDropBy(t: Tracker, id: string, time: nat) {
    forall k | k in t.timers && t.timers[k].action == DropEntry(id) :: t.timers[k].due > time
  }

  /** How one more step bears on a promise for `id` whose own timer is `k`. */
  function Judge(o: Outcome, s: Step, id: string, k: nat): Outcome {
    if !o.Pending? then o
    else
      match s
      case Response(e) => if e.messageId == id then Fulfilled(e) else Pending
      case Failure(e) => if e.messageId == id then Rejected(ErrorEvent(e)) else Pending
      case Fire(j) => if j == k then Rejected(TimedOut) else Pending
      case _ => Pending
  }

  /**
   The first response for `id`, error for `id` or firing of timer `k` among the steps; nothing
   else in the trace matters.
   */
  function Verdict(steps: seq<Step>, id: string, k: nat): Outcome
    decreases |steps|
  {
    if steps == [] then Pending
    else Judge(Verdict(steps[..|steps| - 1], id, k), steps[|steps| - 1], id, k)
  }

  /**
   While it is pending, the promise in cell `c` has its entry, its own timer `k`, and no expiry timer
   of its id that is due before that one has fired.
   */
  predicate Waiting(t: Tracker, id: string, c: nat, k: nat) {
    && c < |t.cells| && k < t.nextTimer
    && (t.cells[c].outcome.Pending? ==>
          && id in t.promises && t.promises[id] == Tracked(c, true, k)
          && k in t.timers && t.timers[k] == Timer(t.cells[c].born + Delay(t.timeout), RejectCell(c))
          && NoDropBy(t, id, t.cells[c].born + Delay(t.timeout)))
  }

  lemma WaitingEvent(t: Tracker, other: string, o: Outcome, id: string, c: nat, k: nat)
    requires Inv(t) && Waiting(t, id, c, k) && !o.Pending?
    ensures Waiting(AfterEvent(t, other, o), id, c, k)
    ensures AfterEvent(t, other, o).cells[c].outcome ==
            if t.cells[c].outcome.Pending? && other == id then o else t.cells[c].outcome
  {
    if t.cells[c].outcome.Pending? {
      assert TimerOk(t, k) && (other in t.promises ==> EntryOk(t, other));
    }
  }

  lemma WaitingCancel(t: Tracker, other: string, message: Option<string>, id: string, c: nat, k: nat)
    requires Inv(t) && Waiting(t, id, c, k) && other != id
    ensures var u := AfterCancel(t, other, message); Waiting(u, id, c, k) && u.cells[c].outcome == t.cells[c].outcome
  {
    if t.cells[c].outcome.Pending? {
      assert EntryOk(t, id) && (other in t.promises ==> EntryOk(t, other));
    }
  }

  lemma WaitingFire(t: Tracker, j: nat, id: string, c: nat, k: nat)
    requires Inv(t) && Waiting(t, id, c, k) && Enabled(t, Fire(j))
    ensures var u := AfterFire(t, j);
            Waiting(u, id, c, k) && u.cells[c].outcome == Judge(t.cells[c].outcome, Fire(j), id, k)
  {
    if t.cells[c].outcome.Pending? {
      assert EntryOk(t, id) && TimerOk(t, k);
    }
  }

  lemma WaitingStep(t: Tracker, s: Step, id: string, c: nat, k: nat)
    requires Inv(t) && Enabled(t, s) && Waiting(t, id, c, k) && !Removes(s, id)
    ensures Waiting(Apply(t, s), id, c, k)
    ensures Apply(t, s).cells[c].outcome == Judge(t.cells[c].outcome, s, id, k)
  {
    match s
    case Response(e) => WaitingEvent(t, e.messageId, Fulfilled(e), id, c, k);
    case Failure(e) => WaitingEvent(t, e.messageId, Rejected(ErrorEvent(e)), id, c, k);
    case Cancel(i, m) => WaitingCancel(t, i, m, id, c, k);
    case Fire(j) => WaitingFire(t, j, id, c, k);
    case _ =>
  }

  /** After these steps the new promise for `id` stands as the trace alone says. */
  predicate OutcomeIsVerdict(t: Tracker, id: string, steps: seq<Step>)
    requires IsRun(AfterPromise(t, id), steps)
  {
    var u := Run(AfterPromise(t, id), steps);
    |t.cells| < |u.cells| && u.cells[|t.cells|].outcome == Verdict(steps, id, t.nextTimer)
  }

  lemma {:induction false} VerdictHolds(t: Tracker, id: string, steps: seq<Step>)
    requires Inv(t) && id !in t.promises && NoDropBy(t, id, t.now + Delay(t.timeout))
    requires IsRun(AfterPromise(t, id), steps) && Undisturbed(steps, id)
    ensures Waiting(Run(AfterPromise(t, id), steps), id, |t.cells|, t.nextTimer) && OutcomeIsVerdict(t, id, steps)
    decreases |steps|
  {
    StepInv(t, Promise(id));
    if steps != [] {
      var n := |steps| - 1;
      assert Undisturbed(steps[..n], id);
      VerdictHolds(t, id, steps[..n]);
      RunInv(AfterPromise(t, id), steps[..n]);
      WaitingStep(Run(AfterPromise(t, id), steps[..n]), steps[n], id, |t.cells|, t.nextTimer);
    }
  }

  // ---------- letting time pass ----------

  /** Only time passes, and only timers of `t` that are due before `time` fire. */
  predicate Quiet(t: Tracker, steps: seq<Step>, time: nat) {
    forall i | 0 <= i < |steps| ::
      steps[i].Tick? || (steps[i].Fire? && steps[i].timer in t.timers && t.timers[steps[i].timer].due < time)
  }

  /** A cell whose rejection is not due before `time`. */
  predicate SafeUntil(t: Tracker, c: nat, time: nat) {
    exists k | k in t.timers :: t.timers[k].action == RejectCell(c) && t.timers[k].due >= time
  }

  /** What a quiet run to `time` leaves as it is. */
  predicate OnlyTimePassed(t: Tracker, u: Tracker, time: nat) {
    && u.timeout == t.timeout && u.nextTimer == t.nextTimer && |u.cells| == |t.cells|
    && (forall k | k in t.timers && t.timers[k].due >= time :: k in u.timers)
    && (forall k | k in u.timers :: k in t.timers && u.timers[k] == t.timers[k])
    && (forall c: nat | c < |t.cells| && SafeUntil(t, c, time) :: u.cells[c] == t.cells[c])
  }

  lemma QuietStep(t: Tracker, s: Step, time: nat)
    requires Inv(t) && Enabled(t, s) && Quiet(t, [s], time)
    ensures OnlyTimePassed(t, Apply(t, s), time)
    ensures forall c: nat | SafeUntil(t, c, time) :: SafeUntil(Apply(t, s), c, time)
  {
    assert [s][0] == s;
    var u := Apply(t, s);
    forall c: nat | SafeUntil(t, c, time) ensures SafeUntil(u, c, time) {
      var k :| k in t.timers && t.timers[k].action == RejectCell(c) && t.timers[k].due >= time;
      assert k in u.timers && u.timers[k] == t.timers[k];
    }
  }

  /** Before an armed timer is due some quiet step can be taken: another timer fires, or time moves. */
  lemma QuietChoice(t: Tracker, k: nat) returns (s: Step, u: Tracker)
    requires Inv(t) && k in t.timers && t.now != t.timers[k].due
    ensures Enabled(t, s) && u == Apply(t, s) && Quiet(t, [s], t.timers[k].due) && Inv(u)
    ensures k in u.timers && u.timers[k] == t.timers[k] && t.now < t.timers[k].due
    ensures (u.now > t.now && u.now <= t.timers[k].due) || (u.now == t.now && |u.timers| < |t.timers|)
  {
    if j :| j in t.timers && t.timers[j].due <= t.now {
      s := Fire(j);
      u := QuietFire(t, k, j);
    } else {
      s := Tick;
      u := QuietTick(t, k);
    }
  }

  lemma QuietFire(t: Tracker, k: nat, j: nat) returns (u: Tracker)
    requires Inv(t) && k in t.timers && t.now != t.timers[k].due && j in t.timers && t.timers[j].due <= t.now
    ensures Enabled(t, Fire(j)) && u == Apply(t, Fire(j)) && Quiet(t, [Fire(j)], t.timers[k].due) && Inv(u)
    ensures k in u.timers && u.timers[k] == t.timers[k] && t.now < t.timers[k].due
    ensures u.now == t.now && |u.timers| < |t.timers|
  {
    assert TimerOk(t, k);
    StepInv(t, Fire(j));
    hide Inv, Delay;
    FewerTimers(t.timers, j);
    assert [Fire(j)][0] == Fire(j);
    u := Apply(t, Fire(j));
  }

  lemma QuietTick(t: Tracker, k: nat) returns (u: Tracker)
    requires Inv(t) && k in t.timers && t.now != t.timers[k].due && Enabled(t, Tick)
    ensures u == Apply(t, Tick) && Quiet(t, [Tick], t.timers[k].due) && Inv(u)
    ensures u.timers == t.timers && t.now < u.now <= t.timers[k].due
  {
    StepInv(t, Tick);
    hide Inv, Delay;
    assert [Tick][0] == Tick;
    u := Apply(t, Tick);
  }

  /** From every state a run of time alone leads to the moment at which an armed timer is due. */
  lemma {:induction false} RunToDue(t: Tracker, k: nat) returns (steps: seq<Step>)
    requires Inv(t) && k in t.timers
    ensures IsRun(t, steps) && Quiet(t, steps, t.timers[k].due)
    ensures Run(t, steps).now == t.timers[k].due && OnlyTimePassed(t, Run(t, steps), t.timers[k].due)
    decreases t.timers[k].due - t.now, |t.timers|
  {
    if t.now == t.timers[k].due {
      steps := [];
    } else {
      hide Inv, Apply, Run, IsRun, SafeUntil, OnlyTimePassed, Quiet;
      var s, u := QuietChoice(t, k);
      QuietStep(t, s, t.timers[k].due);
      var rest := RunToDue(u, k);
      steps := QuietThenQuiet(t, s, u, rest, t.timers[k].due);
    }
  }

  lemma QuietThenQuiet(t: Tracker, s: Step, u: Tracker, rest: seq<Step>, time: nat) returns (steps: seq<Step>)
    requires Enabled(t, s) && u == Apply(t, s) && Quiet(t, [s], time) && OnlyTimePassed(t, u, time)
    requires forall c: nat | SafeUntil(t, c, time) :: SafeUntil(u, c, time)
    requires IsRun(u, rest) && Quiet(u, rest, time) && OnlyTimePassed(u, Run(u, rest), time)
    ensures IsRun(t, steps) && Quiet(t, steps, time) && Run(t, steps) == Run(u, rest)
            && OnlyTimePassed(t, Run(u, rest), time)
  {
    assert [s][0] == s;
    assert IsRun(t, []) && Run(t, []) == t;
    hide Apply, Run, IsRun, SafeUntil;
    var first := Extended(t, [], s);
    assert [] + [s] == [s];
    RunConcat(t, [s], rest);
    steps := [s] + rest;
    forall i | 0 <= i < |steps|
      ensures steps[i].Tick? || (steps[i].Fire? && steps[i].timer in t.timers && t.timers[steps[i].timer].due < time)
    {
      assert i > 0 ==> steps[i] == rest[i - 1];
    }
  }

  lemma FewerTimers(timers: map<nat, Timer>, j: nat)
    requires j in timers
    ensures |timers - {j}| < |timers|
  {
    assert (timers - {j}).Keys == timers.Keys - {j};
    assert |timers.Keys - {j}| < |timers.Keys|;
  }

  lemma QuietIsUndisturbed(t: Tracker, steps: seq<Step>, time: nat, id: string)
    requires Quiet(t, steps, time)
    ensures Undisturbed(steps, id)
  {
  }

  /** Time passes, and then an expiry timer of `id` fires: the entry of `id` is gone. */
  lemma RunToDrop(t: Tracker, id: string, k: nat) returns (steps: seq<Step>)
    requires Inv(t) && k in t.timers && t.timers[k].action == DropEntry(id)
    ensures IsRun(t, steps) && Quiet(t, steps, t.timers[k].due + 1)
    ensures var u := Run(t, steps);
            && u.now == t.timers[k].due && id !in u.promises && |u.cells| == |t.cells|
            && forall c: nat | c < |t.cells| && SafeUntil(t, c, t.timers[k].due) :: u.cells[c] == t.cells[c]
    ensures forall i | 0 <= i < |steps| && steps[i].Fire? ::
              steps[i].timer == k || t.timers[steps[i].timer].due < t.timers[k].due
  {
    var quiet := RunToDue(t, k);
    var u := Extended(t, quiet, Fire(k));
    steps := quiet + [Fire(k)];
  }

  // ---------- the exact condition ----------

  lemma {:induction false} VerdictOfQuiet(t: Tracker, steps: seq<Step>, time: nat, id: string, own: nat)
    requires Quiet(t, steps, time) && forall i | 0 <= i < |steps| && steps[i].Fire? :: steps[i].timer != own
    ensures Verdict(steps, id, own) == Pending
    decreases |steps|
  {
    if steps != [] {
      VerdictOfQuiet(t, steps[..|steps| - 1], time, id, own);
    }
  }

  /** An expiry that is due in time takes the entry of the new promise, and a reply then goes unheard. */
  lemma StolenReply(t: Tracker, id: string, k: nat, e: Event) returns (steps: seq<Step>)
    requires Inv(t) && id !in t.promises && e.messageId == id
    requires k in t.timers && t.timers[k].action == DropEntry(id) && t.timers[k].due <= t.now + Delay(t.timeout)
    ensures IsRun(AfterPromise(t, id), steps) && Undisturbed(steps, id) && !OutcomeIsVerdict(t, id, steps)
  {
    var u, own := AfterPromise(t, id), t.nextTimer;
    StepInv(t, Promise(id));
    assert TimerOk(t, k);
    assert u.timers[own] == Timer(t.now + Delay(t.timeout), RejectCell(|t.cells|));
    assert SafeUntil(u, |t.cells|, t.timers[k].due);
    var dropped := RunToDrop(u, id, k);
    VerdictOfQuiet(u, dropped, t.timers[k].due + 1, id, own);
    QuietIsUndisturbed(u, dropped, t.timers[k].due + 1, id);
    var v := Extended(u, dropped, Response(e));
    steps := dropped + [Response(e)];
    assert steps[..|dropped|] == dropped;
  }

  /**
   First event wins, exactly: whatever happens to a promise for an id that is neither cancelled nor
   deleted, it stands as the first response, error or timeout for it in the trace says, if and only
   if no expiry timer of an earlier reply to that id is due within the promise's own timeout.
   */
  lemma FirstEventWins(t: Tracker, id: string)
    requires Inv(t) && id !in t.promises
    ensures NoDropBy(t, id, t.now + Delay(t.timeout))
       <==> forall steps | IsRun(AfterPromise(t, id), steps) && Undisturbed(steps, id) :: OutcomeIsVerdict(t, id, steps)
  {
    if NoDropBy(t, id, t.now + Delay(t.timeout)) {
      forall steps | IsRun(AfterPromise(t, id), steps) && Undisturbed(steps, id)
        ensures OutcomeIsVerdict(t, id, steps)
      {
        VerdictHolds(t, id, steps);
      }
    } else {
      var k :| k in t.timers && t.timers[k].action == DropEntry(id) && t.timers[k].due <= t.now + Delay(t.timeout);
      var steps := StolenReply(t, id, k, Event("", 0, id, "", "", "", "", None, JNull));
    }
  }

  // ---------- the same, for a caller ----------

  /** Expiry timers are due within two timeouts. */
  predicate DropsSoon(t: Tracker) {
    forall k | k in t.timers && t.timers[k].action.DropEntry? :: t.timers[k].due <= t.now + Delay(2 * t.timeout)
  }

  lemma {:induction false} RunDropsSoon(timeout: nat, steps: seq<Step>)
    requires IsRun(Init(timeout), steps)
    ensures DropsSoon(Run(Init(timeout), steps)) && Run(Init(timeout), steps).timeout == timeout
    decreases |steps|
  {
    if steps != [] {
      RunDropsSoon(timeout, steps[..|steps| - 1]);
    }
  }

  /** Step `i` takes an early entry of `id` away and leaves its expiry armed. */
  predicate LeavesExpiry(timeout: nat, steps: seq<Step>, id: string, i: nat)
    requires IsRun(Init(timeout), steps)
  {
    && i < |steps| && IsRun(Init(timeout), steps[..i])
    && var t := Run(Init(timeout), steps[..i]);
       && id in t.promises && !t.promises[id].live && t.promises[id].timer in t.timers
       && (steps[i] == Delete(id)
           || (steps[i].Fire? && steps[i].timer in t.timers && steps[i].timer != t.promises[id].timer
               && t.timers[steps[i].timer].action == DropEntry(id)))
  }

  /** Step `i` deletes an early entry of `id`. */
  predicate DeletesEarly(timeout: nat, steps: seq<Step>, id: string, i: nat)
    requires IsRun(Init(timeout), steps)
  {
    LeavesExpiry(timeout, steps, id, i) && steps[i] == Delete(id)
  }

  /** The expiry timer `k` is not the one of an early entry that is held. */
  predicate Stray(t: Tracker, id: string, k: nat) {
    && k in t.timers && t.timers[k].action == DropEntry(id)
    && (id in t.promises ==> t.promises[id].live || t.promises[id].timer != k)
  }

  /** A stray expiry was stray before, or its entry is taken away in this step. */
  lemma StrayStep(t: Tracker, s: Step, id: string, k: nat)
    requires Inv(t) && Enabled(t, s) && Stray(Apply(t, s), id, k)
    ensures k in t.timers && t.timers[k] == Apply(t, s).timers[k]
    ensures Stray(t, id, k)
            || (id in t.promises && !t.promises[id].live && t.promises[id].timer == k
                && (s == Delete(id) || (s.Fire? && s.timer != k && t.timers[s.timer].action == DropEntry(id))))
  {
    assert k in t.timers ==> TimerOk(t, k);
    assert id in t.promises ==> EntryOk(t, id);
  }

  lemma {:induction false} WhereStraysComeFrom(timeout: nat, steps: seq<Step>, id: string, k: nat) returns (i: nat)
    requires IsRun(Init(timeout), steps) && Stray(Run(Init(timeout), steps), id, k)
    ensures LeavesExpiry(timeout, steps, id, i)
    ensures Run(Init(timeout), steps).timers[k].due <= Run(Init(timeout), steps[..i]).now + Delay(2 * timeout)
    decreases |steps|
  {
    var n, t0 := |steps| - 1, Init(timeout);
    RunInv(t0, steps[..n]);
    RunDropsSoon(timeout, steps[..n]);
    StrayStep(Run(t0, steps[..n]), steps[n], id, k);
    if Stray(Run(t0, steps[..n]), id, k) {
      i := WhereStraysComeFrom(timeout, steps[..n], id, k);
      assert steps[..n][..i] == steps[..i];
    } else {
      i := n;
    }
  }

  /** Where a stray expiry takes an entry away, it had itself been left behind before. */
  lemma {:induction false} StraysBeginWithDelete(timeout: nat, steps: seq<Step>, id: string, k: nat) returns (i: nat)
    requires IsRun(Init(timeout), steps) && Stray(Run(Init(timeout), steps), id, k)
    ensures DeletesEarly(timeout, steps, id, i)
    decreases |steps|
  {
    i := WhereStraysComeFrom(timeout, steps, id, k);
    if steps[i] != Delete(id) {
      var j := StraysBeginWithDelete(timeout, steps[..i], id, steps[i].timer);
      assert steps[..i][..j] == steps[..j];
      i := j;
    }
  }

  lemma StraysAreRecent(timeout: nat, steps: seq<Step>, id: string, k: nat) returns (i: nat, j: nat)
    requires IsRun(Init(timeout), steps) && Stray(Run(Init(timeout), steps), id, k)
    ensures LeavesExpiry(timeout, steps, id, i) && DeletesEarly(timeout, steps, id, j)
    ensures Run(Init(timeout), steps).now <= Run(Init(timeout), steps[..i]).now + Delay(2 * timeout)
  {
    i := WhereStraysComeFrom(timeout, steps, id, k);
    j := StraysBeginWithDelete(timeout, steps, id, k);
    RunInv(Init(timeout), steps);
    assert TimerOk(Run(Init(timeout), steps), k);
  }

  /**
   A caller need not look at timers: if no early entry of the id was ever deleted, or none was taken
   away ahead of its expiry within the last two timeouts, the first event wins.
   */
  lemma SafeToAsk(timeout: nat, steps: seq<Step>, id: string)
    requires IsRun(Init(timeout), steps) && id !in Run(Init(timeout), steps).promises
    requires (forall i: nat :: !DeletesEarly(timeout, steps, id, i))
             || forall i: nat | LeavesExpiry(timeout, steps, id, i) ::
                  Run(Init(timeout), steps[..i]).now + Delay(2 * timeout) < Run(Init(timeout), steps).now
    ensures var t := Run(Init(timeout), steps);
            forall more | IsRun(AfterPromise(t, id), more) && Undisturbed(more, id) :: OutcomeIsVerdict(t, id, more)
  {
    var t := Run(Init(timeout), steps);
    RunInv(Init(timeout), steps);
    if k :| Stray(t, id, k) {
      var i, j := StraysAreRecent(timeout, steps, id, k);
    }
    assert forall k | k in t.timers && t.timers[k].action == DropEntry(id) :: Stray(t, id, k);
    FirstEventWins(t, id);
  }

  /**
   That no early entry was deleted within the last two timeouts is not enough: the expiry of one
   that was takes a later early entry away, whose own expiry then is left behind.
   */
  lemma DeletedLongAgoIsNotEnough(e: Event) returns (steps: seq<Step>)
    ensures IsRun(Init(2), steps) && e.messageId !in Run(Init(2), steps).promises
    ensures forall i: nat | DeletesEarly(2, steps, e.messageId, i) ::
              Run(Init(2), steps[..i]).now + Delay(2 * 2) < Run(Init(2), steps).now
    ensures !NoDropBy(Run(Init(2), steps), e.messageId, Run(Init(2), steps).now + Delay(2))
  {
    hide Run, IsRun, Apply;
    var before := DeletedEarlyReply(e);
    var t := Run(Init(2), before);
    var more := SecondEarlyReplyDropped(e);
    RunConcat(Init(2), before, more);
    steps := before + more;
    var u := Run(Init(2), steps);
    assert 1 in u.timers && u.timers[1] == Timer(7, DropEntry(e.messageId)) && u.now == 6;
    forall i: nat | DeletesEarly(2, steps, e.messageId, i) ensures Run(Init(2), steps[..i]).now + Delay(2 * 2) < 6 {
      assert i == 1;
      assert steps[..1] == [Response(e)];
      FirstReplyAtZero(e);
    }
  }

  lemma FirstReplyAtZero(e: Event)
    ensures IsRun(Init(2), [Response(e)]) && Run(Init(2), [Response(e)]).now == 0
  {
    var t := Extended(Init(2), [], Response(e));
    assert [] + [Response(e)] == [Response(e)];
  }

  /** A second early reply comes, loses its entry to the first one's expiry, and leaves its own. */
  lemma SecondEarlyReplyDropped(e: Event) returns (steps: seq<Step>)
    ensures var id := e.messageId;
            var t := Tracker(2, 3, map[], [Cell(id, 0, Fulfilled(e))], map[0 := Timer(4, DropEntry(id))], 1);
            && steps == [Response(e), Tick, Fire(0), Tick, Tick]
            && IsRun(t, steps)
            && Run(t, steps) == Tracker(2, 6, map[], [Cell(id, 0, Fulfilled(e)), Cell(id, 3, Fulfilled(e))],
                                        map[1 := Timer(7, DropEntry(id))], 2)
  {
    var id := e.messageId;
    var t := Tracker(2, 3, map[], [Cell(id, 0, Fulfilled(e))], map[0 := Timer(4, DropEntry(id))], 1);
    steps := SecondEarlyReplyLoses(e);
    hide Run, IsRun;
    var u := Extended(t, steps, Tick);
    u := Extended(t, steps + [Tick], Tick);
    steps := steps + [Tick] + [Tick];
  }

  lemma SecondEarlyReplyLoses(e: Event) returns (steps: seq<Step>)
    ensures var id := e.messageId;
            var t := Tracker(2, 3, map[], [Cell(id, 0, Fulfilled(e))], map[0 := Timer(4, DropEntry(id))], 1);
            && steps == [Response(e), Tick, Fire(0)]
            && IsRun(t, steps)
            && Run(t, steps) == Tracker(2, 4, map[], [Cell(id, 0, Fulfilled(e)), Cell(id, 3, Fulfilled(e))],
                                        map[1 := Timer(7, DropEntry(id))], 2)
  {
    var id := e.messageId;
    var t := Tracker(2, 3, map[], [Cell(id, 0, Fulfilled(e))], map[0 := Timer(4, DropEntry(id))], 1);
    NoSteps(t);
    hide Run, IsRun;
    var u := Extended(t, [], Response(e));
    assert u.timers == map[0 := Timer(4, DropEntry(id)), 1 := Timer(7, DropEntry(id))];
    u := Extended(t, [] + [Response(e)], Tick);
    u := Extended(t, [] + [Response(e)] + [Tick], Fire(0));
    assert u.promises == map[] && u.timers == map[1 := Timer(7, DropEntry(id))];
    steps := [] + [Response(e)] + [Tick] + [Fire(0)];
  }

  // ---------- early and late events ----------

  /** The early entry of `id` made with cell `c` and timer `k` is held. */
  predicate Held(t: Tracker, id: string, c: nat, k: nat) {
    && id in t.promises && t.promises[id] == Tracked(c, false, k)
    && c < |t.cells| && !t.cells[c].outcome.Pending?
  }

  lemma HeldStep(t: Tracker, s: Step, id: string, c: nat, k: nat, time: nat)
    requires Inv(t) && Enabled(t, s) && Held(t, id, c, k) && !Removes(s, id)
    requires NoDropBy(t, id, time) && t.now <= time
    ensures Held(Apply(t, s), id, c, k) && NoDropBy(Apply(t, s), id, time)
    ensures Apply(t, s).cells[c] == t.cells[c]
  {
    match s
    case Response(e) => assert e.messageId in t.promises ==> EntryOk(t, e.messageId);
    case Failure(e) => assert e.messageId in t.promises ==> EntryOk(t, e.messageId);
    case Cancel(i, m) => assert i in t.promises ==> EntryOk(t, i);
    case _ =>
  }

  lemma TimeMoves(t: Tracker, s: Step)
    requires Enabled(t, s)
    ensures t.now <= Apply(t, s).now
  {
  }

  /** Until its first expiry is due an early entry is kept with its outcome, whatever else happens. */
  lemma {:induction false} EarlyEntryStays(t: Tracker, id: string, o: Outcome, steps: seq<Step>, time: nat)
    requires Inv(t) && id !in t.promises && !o.Pending? && NoDropBy(AfterEvent(t, id, o), id, time)
    requires IsRun(AfterEvent(t, id, o), steps) && Undisturbed(steps, id)
    requires Run(AfterEvent(t, id, o), steps).now <= time
    ensures var u := Run(AfterEvent(t, id, o), steps);
            Held(u, id, |t.cells|, t.nextTimer) && NoDropBy(u, id, time) && u.cells[|t.cells|] == Cell(id, t.now, o)
    decreases |steps|
  {
    AfterEventInv(t, id, o);
    if steps != [] {
      var n := |steps| - 1;
      assert Undisturbed(steps[..n], id);
      var v := Run(AfterEvent(t, id, o), steps[..n]);
      RunInv(AfterEvent(t, id, o), steps[..n]);
      TimeMoves(v, steps[n]);
      EarlyEntryStays(t, id, o, steps[..n], time);
      HeldStep(v, steps[n], id, |t.cells|, t.nextTimer, time);
    }
  }

  /** What an event step settles a promise to. */
  function EventOutcome(s: Step): Outcome
    requires s.Response? || s.Failure?
  {
    if s.Response? then Fulfilled(s.event) else Rejected(ErrorEvent(s.event))
  }

  /** Asking now hands out a promise that already has this outcome, and changes nothing. */
  predicate ClaimGives(t: Tracker, id: string, o: Outcome) {
    HandedOut(t, id) < |t.cells| && t.cells[HandedOut(t, id)].outcome == o && Apply(t, Promise(id)) == t
  }

  /**
   Asking before or after the answer makes no difference, exactly: a promise that was asked for
   first has the answer's outcome for good; a claim of the early answer up to some time gives the
   same outcome, in every undisturbed continuation, if and only if no expiry is due by that time.
   */
  lemma OrderDoesNotMatter(t: Tracker, s: Step, time: nat)
    requires Inv(t) && (s.Response? || s.Failure?) && s.event.messageId !in t.promises
    ensures var id := s.event.messageId; var asked := Apply(Apply(t, Promise(id)), s);
            forall late | IsRun(asked, late) ::
              && HandedOut(t, id) < |Run(asked, late).cells|
              && Run(asked, late).cells[HandedOut(t, id)].outcome == EventOutcome(s)
    ensures NoDropBy(Apply(t, s), s.event.messageId, time)
       <==> forall early | IsRun(Apply(t, s), early) && Undisturbed(early, s.event.messageId)
                           && Run(Apply(t, s), early).now <= time ::
              ClaimGives(Run(Apply(t, s), early), s.event.messageId, EventOutcome(s))
  {
    var id, u := s.event.messageId, Apply(t, s);
    AnswerStays(t, s);
    AfterEventInv(t, id, EventOutcome(s));
    if NoDropBy(u, id, time) {
      forall early | IsRun(u, early) && Undisturbed(early, id) && Run(u, early).now <= time
        ensures ClaimGives(Run(u, early), id, EventOutcome(s))
      {
        EarlyEntryStays(t, id, EventOutcome(s), early, time);
      }
    } else {
      var k :| k in u.timers && u.timers[k].action == DropEntry(id) && u.timers[k].due <= time;
      var early := RunToDrop(u, id, k);
      QuietIsUndisturbed(u, early, u.timers[k].due + 1, id);
      assert !ClaimGives(Run(u, early), id, EventOutcome(s));
    }
  }

  lemma AnswerStays(t: Tracker, s: Step)
    requires (s.Response? || s.Failure?) && s.event.messageId !in t.promises
    ensures var id := s.event.messageId; var asked := Apply(Apply(t, Promise(id)), s);
            forall late | IsRun(asked, late) ::
              && HandedOut(t, id) < |Run(asked, late).cells|
              && Run(asked, late).cells[HandedOut(t, id)].outcome == EventOutcome(s)
  {
    var asked := Apply(Apply(t, Promise(s.event.messageId)), s);
    forall late | IsRun(asked, late)
      ensures |t.cells| < |Run(asked, late).cells| && Run(asked, late).cells[|t.cells|].outcome == EventOutcome(s)
    {
      SettledForever(asked, late, |t.cells|);
    }
  }

  /** A deleted early reply leaves its expiry timer behind. */
  lemma DeletedEarlyReply(e: Event) returns (steps: seq<Step>)
    ensures steps == [Response(e), Delete(e.messageId), Tick, Tick, Tick] && IsRun(Init(2), steps)
    ensures Run(Init(2), steps) ==
            Tracker(2, 3, map[], [Cell(e.messageId, 0, Fulfilled(e))], map[0 := Timer(4, DropEntry(e.messageId))], 1)
  {
    var t := Extended(Init(2), [], Response(e));
    t := Extended(Init(2), [] + [Response(e)], Delete(e.messageId));
    steps := [] + [Response(e)] + [Delete(e.messageId)];
    assert t == Tracker(2, 0, map[], [Cell(e.messageId, 0, Fulfilled(e))],
                        map[0 := Timer(4, DropEntry(e.messageId))], 1);
    t := Extended(Init(2), steps, Tick);
    t := Extended(Init(2), steps + [Tick], Tick);
    t := Extended(Init(2), steps + [Tick] + [Tick], Tick);
    steps := steps + [Tick] + [Tick] + [Tick];
  }

  lemma {:induction false} RunConcat(t: Tracker, a: seq<Step>, b: seq<Step>)
    requires IsRun(t, a) && IsRun(Run(t, a), b)
    ensures IsRun(t, a + b) && Run(t, a + b) == Run(Run(t, a), b)
    decreases |b|
  {
    hide Apply;
    if b == [] {
      assert a + b == a;
    } else {
      var n := |b| - 1;
      RunConcat(t, a, b[..n]);
      assert (a + b)[..|a + b| - 1] == a + b[..n];
    }
  }

  /** The stale timer takes the entry of a new promise. */
  lemma StaleTimerDropsTheNewEntry(e: Event) returns (steps: seq<Step>)
    ensures var t := Tracker(2, 3, map[], [Cell(e.messageId, 0, Fulfilled(e))],
                             map[0 := Timer(4, DropEntry(e.messageId))], 1);
            && steps == [Promise(e.messageId), Tick, Fire(0)]
            && IsRun(t, steps)
            && Run(t, steps) == Tracker(2, 4, map[],
                                        [Cell(e.messageId, 0, Fulfilled(e)), Cell(e.messageId, 3, Pending)],
                                        map[1 := Timer(5, RejectCell(1))], 2)
  {
    var id := e.messageId;
    var t := Tracker(2, 3, map[], [Cell(id, 0, Fulfilled(e))], map[0 := Timer(4, DropEntry(id))], 1);
    NoSteps(t);
    hide Run, IsRun;
    var u := Extended(t, [], Promise(id));
    assert u.timers == map[0 := Timer(4, DropEntry(id)), 1 := Timer(5, RejectCell(1))];
    u := Extended(t, [] + [Promise(id)], Tick);
    u := Extended(t, [] + [Promise(id)] + [Tick], Fire(0));
    steps := [] + [Promise(id)] + [Tick] + [Fire(0)];
    assert u.promises == map[] && u.timers == map[1 := Timer(5, RejectCell(1))];
  }

  /** A reply to a promise without an entry goes unheard. */
  lemma ReplyWithoutEntry(e: Event) returns (steps: seq<Step>)
    ensures var t := Tracker(2, 4, map[], [Cell(e.messageId, 0, Fulfilled(e)), Cell(e.messageId, 3, Pending)],
                             map[1 := Timer(5, RejectCell(1))], 2);
            && steps == [Response(e), Tick, Fire(1)]
            && IsRun(t, steps)
            && |Run(t, steps).cells| > 1 && Run(t, steps).cells[1] == Cell(e.messageId, 3, Rejected(TimedOut))
  {
    var id := e.messageId;
    var t := Tracker(2, 4, map[], [Cell(id, 0, Fulfilled(e)), Cell(id, 3, Pending)],
                     map[1 := Timer(5, RejectCell(1))], 2);
    NoSteps(t);
    hide Run, IsRun;
    var u := Extended(t, [], Response(e));
    assert u.timers == map[1 := Timer(5, RejectCell(1)), 2 := Timer(8, DropEntry(id))];
    u := Extended(t, [] + [Response(e)], Tick);
    u := Extended(t, [] + [Response(e)] + [Tick], Fire(1));
    steps := [] + [Response(e)] + [Tick] + [Fire(1)];
  }

  /**
   A promise made while such a timer is armed loses its entry to it, and the reply that arrives in
   time goes unheard: freshness of the id in the record alone is not enough.
   */
  lemma StaleExpiryStealsTheReply(e: Event) returns (before: seq<Step>, after: seq<Step>)
    ensures IsRun(Init(2), before) && e.messageId !in Run(Init(2), before).promises
    ensures after == [Promise(e.messageId), Tick, Fire(0), Response(e), Tick, Fire(1)]
    ensures IsRun(Init(2), before + after)
    ensures var t := Run(Init(2), before + after);
            |t.cells| > 1 && t.cells[1] == Cell(e.messageId, 3, Rejected(TimedOut))
  {
    hide Run, IsRun, Apply;
    before := DeletedEarlyReply(e);
    var t := Run(Init(2), before);
    var dropped := StaleTimerDropsTheNewEntry(e);
    var unheard := ReplyWithoutEntry(e);
    RunConcat(t, dropped, unheard);
    after := dropped + unheard;
    assert after == [Promise(e.messageId), Tick, Fire(0), Response(e), Tick, Fire(1)];
    RunConcat(Init(2), before, after);
  }

  lemma NoSteps(t: Tracker)
    ensures IsRun(t, []) && Run(t, []) == t
  {
  }

  lemma Extended(t: Tracker, steps: seq<Step>, s: Step) returns (u: Tracker)
    requires IsRun(t, steps) && Enabled(Run(t, steps), s)
    ensures IsRun(t, steps + [s]) && u == Run(t, steps + [s]) == Apply(Run(t, steps), s)
  {
    assert (steps + [s])[..|steps|] == steps;
    u := Run(t, steps + [s]);
  }

  // ---------- replies nobody asked for ----------

  predicate IsEventFor(s: Step, id: string) {
    (s.Response? || s.Failure?) && s.event.messageId == id
  }

  /** An event for `id` arrives while the early entry is held. */
  predicate EventWhileHeld(t: Tracker, steps: seq<Step>, id: string, c: nat, k: nat)
    requires IsRun(t, steps)
    decreases |steps|
  {
    steps != [] &&
    var n := |steps| - 1;
    EventWhileHeld(t, steps[..n], id, c, k) || (IsEventFor(steps[n], id) && Held(Run(t, steps[..n]), id, c, k))
  }

  /**
   How it stands with an early entry whose own expiry is timer `k`, due at `due`: `stale` says that
   another expiry of its id was armed when it came, `hit` that an event has met it since.
   */
  predicate Fate(t: Tracker, id: string, c: nat, k: nat, due: nat, stale: bool, hit: bool) {
    && k < t.nextTimer && c < |t.cells| && !t.cells[c].outcome.Pending?
    && (hit && !stale ==> Held(t, id, c, k) && NoStaleExpiry(t, id))
    && (Held(t, id, c, k) ==>
          && (!hit ==> k in t.timers && t.timers[k] == Timer(due, DropEntry(id)))
          && (stale ==>
                exists j | j in t.timers :: j != k && t.timers[j].action == DropEntry(id) && t.timers[j].due <= due)
          && (!stale ==> forall j | j in t.timers && t.timers[j].action == DropEntry(id) :: j == k))
  }

  /** How a step bears on a held early entry and on the expiries of its id. */
  lemma HeldTimers(t: Tracker, s: Step, id: string, c: nat, k: nat)
    requires Inv(t) && Enabled(t, s) && Held(t, id, c, k) && !Removes(s, id)
    ensures var u := Apply(t, s);
            && k < u.nextTimer
            && (Held(u, id, c, k) <==> !(s.Fire? && t.timers[s.timer].action == DropEntry(id)))
            && (forall j | j in u.timers && u.timers[j].action == DropEntry(id) ::
                  j in t.timers && u.timers[j] == t.timers[j])
            && (forall j | j in t.timers && t.timers[j].action == DropEntry(id) ::
                  j in u.timers <==> s != Fire(j) && !(IsEventFor(s, id) && j == k))
  {
    assert EntryOk(t, id);
    match s
    case Response(e) => assert e.messageId in t.promises ==> EntryOk(t, e.messageId);
    case Failure(e) => assert e.messageId in t.promises ==> EntryOk(t, e.messageId);
    case Cancel(i, m) => assert i in t.promises ==> EntryOk(t, i);
    case _ =>
  }

  lemma NotHeldStays(t: Tracker, s: Step, id: string, c: nat, k: nat)
    requires Enabled(t, s) && !Held(t, id, c, k) && k < t.nextTimer && c < |t.cells| && !t.cells[c].outcome.Pending?
    ensures var u := Apply(t, s); !Held(u, id, c, k) && k < u.nextTimer && c < |u.cells| && !u.cells[c].outcome.Pending?
  {
  }

  lemma FateStep(t: Tracker, s: Step, id: string, c: nat, k: nat, due: nat, stale: bool, hit: bool)
    requires Inv(t) && Enabled(t, s) && Fate(t, id, c, k, due, stale, hit) && !Removes(s, id)
    ensures Fate(Apply(t, s), id, c, k, due, stale, hit || (IsEventFor(s, id) && Held(t, id, c, k)))
  {
    if Held(t, id, c, k) {
      HeldTimers(t, s, id, c, k);
      hide Inv, Apply;
    } else {
      NotHeldStays(t, s, id, c, k);
    }
  }

  lemma {:induction false} FateRun(t: Tracker, id: string, o: Outcome, steps: seq<Step>)
    requires Inv(t) && DropsSoon(t) && id !in t.promises && !o.Pending?
    requires IsRun(AfterEvent(t, id, o), steps) && Undisturbed(steps, id)
    ensures var u := AfterEvent(t, id, o);
            Fate(Run(u, steps), id, |t.cells|, t.nextTimer, t.now + Delay(2 * t.timeout),
                 !NoStaleExpiry(t, id), EventWhileHeld(u, steps, id, |t.cells|, t.nextTimer))
    decreases |steps|
  {
    var u := AfterEvent(t, id, o);
    AfterEventInv(t, id, o);
    if steps == [] {
      if j :| j in t.timers && t.timers[j].action == DropEntry(id) {
        assert TimerOk(t, j) && j in u.timers && u.timers[j] == t.timers[j];
      }
    } else {
      var n := |steps| - 1;
      assert Undisturbed(steps[..n], id);
      FateRun(t, id, o, steps[..n]);
      RunInv(u, steps[..n]);
      hide Fate, Held, NoStaleExpiry;
      FateStep(Run(u, steps[..n]), steps[n], id, |t.cells|, t.nextTimer, t.now + Delay(2 * t.timeout),
               !NoStaleExpiry(t, id), EventWhileHeld(u, steps[..n], id, |t.cells|, t.nextTimer));
    }
  }

  /**
   An unclaimed early entry is gone once twice the timeout has passed, exactly: it is still held then
   if and only if another event for its id met it while no older expiry of the id was armed.
   */
  lemma EarlyEntryGoesExactly(t: Tracker, id: string, o: Outcome, steps: seq<Step>)
    requires Inv(t) && DropsSoon(t) && id !in t.promises && !o.Pending?
    requires IsRun(AfterEvent(t, id, o), steps) && Undisturbed(steps, id)
    requires Run(AfterEvent(t, id, o), steps).now > t.now + Delay(2 * t.timeout)
    ensures Held(Run(AfterEvent(t, id, o), steps), id, |t.cells|, t.nextTimer)
       <==> NoStaleExpiry(t, id) && EventWhileHeld(AfterEvent(t, id, o), steps, id, |t.cells|, t.nextTimer)
  {
    var u := AfterEvent(t, id, o);
    AfterEventInv(t, id, o);
    FateRun(t, id, o, steps);
    RunInv(u, steps);
    var v := Run(u, steps);
    assert forall k | k in v.timers :: TimerOk(v, k);
  }

  /**
   With any timeout of up to 1073741823 milliseconds an early entry that nothing else concerns is held
   until twice that time is over, and not after.
   */
  lemma EarlyEntriesLastTwiceAsLong(t: Tracker, id: string, o: Outcome, steps: seq<Step>)
    requires 1 <= t.timeout && 2 * t.timeout <= 2147483647
    requires Inv(t) && DropsSoon(t) && id !in t.promises && !o.Pending? && NoStaleExpiry(t, id)
    requires IsRun(AfterEvent(t, id, o), steps) && Undisturbed(steps, id)
    requires forall i | 0 <= i < |steps| :: !IsEventFor(steps[i], id)
    ensures var u := Run(AfterEvent(t, id, o), steps);
            && (u.now < t.now + 2 * t.timeout ==> Held(u, id, |t.cells|, t.nextTimer))
            && (u.now > t.now + 2 * t.timeout ==> id !in u.promises || u.promises[id].timer != t.nextTimer)
  {
    var u := AfterEvent(t, id, o);
    if Run(u, steps).now < t.now + 2 * t.timeout {
      assert NoDropBy(u, id, Run(u, steps).now);
      EarlyEntryStays(t, id, o, steps, Run(u, steps).now);
    } else if Run(u, steps).now > t.now + 2 * t.timeout {
      EarlyEntryGoesExactly(t, id, o, steps);
      NeverHit(u, steps, id, |t.cells|, t.nextTimer);
      OneEntryPerTimer(t, id, o, steps);
    }
  }

  lemma {:induction false} NeverHit(t: Tracker, steps: seq<Step>, id: string, c: nat, k: nat)
    requires IsRun(t, steps) && forall i | 0 <= i < |steps| :: !IsEventFor(steps[i], id)
    ensures !EventWhileHeld(t, steps, id, c, k)
    decreases |steps|
  {
    if steps != [] {
      NeverHit(t, steps[..|steps| - 1], id, c, k);
    }
  }

  /** An entry with this timer is the early one. */
  lemma {:induction false} OneEntryPerTimer(t: Tracker, id: string, o: Outcome, steps: seq<Step>)
    requires Inv(t) && id !in t.promises && !o.Pending? && IsRun(AfterEvent(t, id, o), steps)
    ensures var u := Run(AfterEvent(t, id, o), steps);
            && t.nextTimer < u.nextTimer && |t.cells| < |u.cells| && !u.cells[|t.cells|].outcome.Pending?
            && (id in u.promises && u.promises[id].timer == t.nextTimer ==> Held(u, id, |t.cells|, t.nextTimer))
    decreases |steps|
  {
    if steps != [] {
      var n := |steps| - 1;
      OneEntryPerTimer(t, id, o, steps[..n]);
      hide Apply;
      NoSecondEntry(Run(AfterEvent(t, id, o), steps[..n]), steps[n], id, |t.cells|, t.nextTimer);
    }
  }

  lemma NoSecondEntry(t: Tracker, s: Step, id: string, c: nat, k: nat)
    requires Enabled(t, s) && k < t.nextTimer && c < |t.cells| && !t.cells[c].outcome.Pending?
    requires id in t.promises && t.promises[id].timer == k ==> Held(t, id, c, k)
    ensures var u := Apply(t, s);
            && k < u.nextTimer && c < |u.cells| && !u.cells[c].outcome.Pending?
            && (id in u.promises && u.promises[id].timer == k ==> Held(u, id, c, k))
  {
    hide Delay;
  }

  /**
   A second event for an early entry pins it, exactly: every undisturbed continuation keeps the entry
   if and only if no other expiry of the id is armed.
   */
  lemma SecondEventPinsTheEntry(t: Tracker, s: Step, id: string)
    requires Inv(t) && IsEventFor(s, id) && id in t.promises && !t.promises[id].live
    ensures (forall k | k in t.timers && t.timers[k].action == DropEntry(id) :: k == t.promises[id].timer)
       <==> forall steps | IsRun(Apply(t, s), steps) && Undisturbed(steps, id) ::
              id in Run(Apply(t, s), steps).promises && Run(Apply(t, s), steps).promises[id] == t.promises[id]
  {
    var u := Apply(t, s);
    assert EntryOk(t, id);
    StepInv(t, s);
    if forall k | k in t.timers && t.timers[k].action == DropEntry(id) :: k == t.promises[id].timer {
      forall steps | IsRun(u, steps) && Undisturbed(steps, id)
        ensures id in Run(u, steps).promises && Run(u, steps).promises[id] == t.promises[id]
      {
        PinnedStays(u, id, steps);
      }
    } else {
      var k :| k in t.timers && t.timers[k].action == DropEntry(id) && k != t.promises[id].timer;
      assert k in u.timers && u.timers[k] == t.timers[k];
      var steps := RunToDrop(u, id, k);
      QuietIsUndisturbed(u, steps, u.timers[k].due + 1, id);
    }
  }

  lemma {:induction false} PinnedStays(t: Tracker, id: string, steps: seq<Step>)
    requires Inv(t) && id in t.promises && !t.promises[id].live && NoStaleExpiry(t, id)
    requires IsRun(t, steps) && Undisturbed(steps, id)
    ensures var u := Run(t, steps); id in u.promises && u.promises[id] == t.promises[id] && NoStaleExpiry(u, id)
    decreases |steps|
  {
    if steps != [] {
      var n := |steps| - 1;
      assert Undisturbed(steps[..n], id);
      PinnedStays(t, id, steps[..n]);
      hide NoStaleExpiry, Apply;
      PinnedStep(Run(t, steps[..n]), steps[n], id);
    }
  }

  lemma PinnedStep(t: Tracker, s: Step, id: string)
    requires Enabled(t, s) && !Removes(s, id) && id in t.promises && !t.promises[id].live && NoStaleExpiry(t, id)
    ensures var u := Apply(t, s); id in u.promises && u.promises[id] == t.promises[id] && NoStaleExpiry(u, id)
  {
    hide Delay;
  }

  /** The event in the trace that created the early entry. */
  ghost predicate CreatedAt(t: Tracker, steps: seq<Step>, id: string, born: nat, i: nat)
    requires IsRun(t, steps)
  {
    && i < |steps| && IsEventFor(steps[i], id)
    && IsRun(t, steps[..i]) && Run(t, steps[..i]).now == born
  }

  /** Where an early entry comes from, one step back. */
  lemma EarlyEntryOrigin(t: Tracker, s: Step, id: string)
    requires Inv(t) && Enabled(t, s)
    requires var u := Apply(t, s); id in u.promises && !u.promises[id].live
    ensures var u := Apply(t, s);
            var e := u.promises[id];
            && e.cell < |u.cells|
            && if id in t.promises
               then e == t.promises[id] && e.cell < |t.cells| && u.cells[e.cell].born == t.cells[e.cell].born
                    && (e.timer in u.timers <==> e.timer in t.timers && !IsEventFor(s, id))
               else IsEventFor(s, id) && u.cells[e.cell].born == t.now && e.timer in u.timers
  {
    if id in t.promises {
      assert EntryOk(t, id);
      match s
      case Response(e) => assert e.messageId in t.promises ==> EntryOk(t, e.messageId);
      case Failure(e) => assert e.messageId in t.promises ==> EntryOk(t, e.messageId);
      case Cancel(i, m) => assert i in t.promises ==> EntryOk(t, i);
      case _ =>
    }
  }

  /** No event for `id` comes after step `i`. */
  predicate QuietAfter(steps: seq<Step>, id: string, i: nat) {
    forall j | i < j < |steps| :: !IsEventFor(steps[j], id)
  }

  /** After step `i` the entry of `id` is this early one, up to the end. */
  ghost predicate HeldSince(t: Tracker, steps: seq<Step>, id: string, e: Tracked, i: nat)
    requires IsRun(t, steps)
  {
    forall j | i < j <= |steps| ::
      IsRun(t, steps[..j]) && id in Run(t, steps[..j]).promises && Run(t, steps[..j]).promises[id] == e
  }

  lemma {:induction false} EarlyEntryHistory(timeout: nat, steps: seq<Step>, id: string) returns (i: nat)
    requires IsRun(Init(timeout), steps)
    requires var t := Run(Init(timeout), steps); id in t.promises && !t.promises[id].live
    ensures var t := Run(Init(timeout), steps); var e := t.promises[id];
            && e.cell < |t.cells|
            && CreatedAt(Init(timeout), steps, id, t.cells[e.cell].born, i)
            && HeldSince(Init(timeout), steps, id, e, i)
            && (e.timer in t.timers <==> QuietAfter(steps, id, i))
    decreases |steps|
  {
    var n := |steps| - 1;
    var t0 := Init(timeout);
    RunInv(t0, steps[..n]);
    EarlyEntryOrigin(Run(t0, steps[..n]), steps[n], id);
    assert steps[..|steps|] == steps;
    if id in Run(t0, steps[..n]).promises {
      i := EarlyEntryHistory(timeout, steps[..n], id);
      assert steps[..n][..i] == steps[..i];
      hide Apply, Inv;
      HeldOn(t0, steps, id, Run(t0, steps).promises[id], i);
      QuietOn(steps, id, i);
    } else {
      i := n;
    }
  }

  lemma HeldOn(t: Tracker, steps: seq<Step>, id: string, e: Tracked, i: nat)
    requires IsRun(t, steps) && steps != [] && HeldSince(t, steps[..|steps| - 1], id, e, i)
    requires id in Run(t, steps).promises && Run(t, steps).promises[id] == e
    ensures HeldSince(t, steps, id, e, i)
  {
    hide Apply;
    var n := |steps| - 1;
    forall j | i < j <= |steps|
      ensures IsRun(t, steps[..j]) && id in Run(t, steps[..j]).promises && Run(t, steps[..j]).promises[id] == e
    {
      if j <= n {
        assert steps[..n][..j] == steps[..j];
      } else {
        assert steps[..j] == steps;
      }
    }
  }

  lemma QuietOn(steps: seq<Step>, id: string, i: nat)
    requires i < |steps| - 1
    ensures QuietAfter(steps, id, i) <==> QuietAfter(steps[..|steps| - 1], id, i) && !IsEventFor(steps[|steps| - 1], id)
  {
    var n := |steps| - 1;
    assert forall j | i < j < n :: steps[..n][j] == steps[j];
  }

  /**
   Where an early entry stands, exactly, in every run: it was created by an event for its id and has
   been held since; its expiry is armed if and only if no further event for the id has come, and
   then it is never older than twice the timeout, and at that very age its expiry is next.
   */
  lemma EarlyEntriesExpire(timeout: nat, steps: seq<Step>, id: string) returns (i: nat)
    requires IsRun(Init(timeout), steps)
    requires var t := Run(Init(timeout), steps); id in t.promises && !t.promises[id].live
    ensures var t := Run(Init(timeout), steps); var e := t.promises[id];
            && e.cell < |t.cells|
            && CreatedAt(Init(timeout), steps, id, t.cells[e.cell].born, i)
            && HeldSince(Init(timeout), steps, id, e, i)
            && (e.timer in t.timers <==> QuietAfter(steps, id, i))
            && (QuietAfter(steps, id, i) ==> t.now <= t.cells[e.cell].born + Delay(2 * timeout))
            && (QuietAfter(steps, id, i) && t.now == t.cells[e.cell].born + Delay(2 * timeout) ==>
                  !Enabled(t, Tick) && Enabled(t, Fire(e.timer)) && id !in Apply(t, Fire(e.timer)).promises)
  {
    var t := Run(Init(timeout), steps);
    RunInv(Init(timeout), steps);
    i := EarlyEntryHistory(timeout, steps, id);
    hide CreatedAt, HeldSince;
    assert EntryOk(t, id);
    if t.promises[id].timer in t.timers {
      assert TimerOk(t, t.promises[id].timer);
    }
  }

  /** The events heard within the last two timeouts. */
  ghost function RecentEvents(timeout: nat, steps: seq<Step>): set<nat>
    requires IsRun(Init(timeout), steps)
  {
    set i: nat | i < |steps| && RecentEvent(timeout, steps, i)
  }

  ghost predicate RecentEvent(timeout: nat, steps: seq<Step>, i: nat)
    requires IsRun(Init(timeout), steps) && i < |steps|
  {
    && (steps[i].Response? || steps[i].Failure?)
    && IsRun(Init(timeout), steps[..i])
    && Run(Init(timeout), steps).now <= Run(Init(timeout), steps[..i]).now + Delay(2 * timeout)
  }

  function EarlyIds(t: Tracker): set<string> {
    set id | id in t.promises && !t.promises[id].live
  }

  /** The early entries whose expiry is armed. */
  function ExpiringIds(t: Tracker): set<string> {
    set id | id in t.promises && !t.promises[id].live && t.promises[id].timer in t.timers
  }

  /** Step `j` is an event that meets an early entry of its id. */
  ghost predicate MeetsEarly(timeout: nat, steps: seq<Step>, j: nat)
    requires IsRun(Init(timeout), steps)
  {
    && j < |steps| && (steps[j].Response? || steps[j].Failure?)
    && IsRun(Init(timeout), steps[..j])
    && var t, id := Run(Init(timeout), steps[..j]), steps[j].event.messageId; id in t.promises && !t.promises[id].live
  }

  lemma {:induction false} ImageIsNoLarger(steps: seq<Step>, ids: set<string>, indices: set<nat>)
    requires forall id | id in ids :: exists i :: i in indices && i < |steps| && IsEventFor(steps[i], id)
    ensures |ids| <= |indices|
    decreases ids
  {
    if ids != {} {
      var id :| id in ids;
      var i :| i in indices && i < |steps| && IsEventFor(steps[i], id);
      forall j | j in ids - {id} ensures exists k :: k in indices - {i} && k < |steps| && IsEventFor(steps[k], j) {
        var k :| k in indices && k < |steps| && IsEventFor(steps[k], j);
        assert k != i;
      }
      ImageIsNoLarger(steps, ids - {id}, indices - {i});
    }
  }

  /**
   In every run the early entries whose expiry is armed never outnumber the events of the last two
   timeouts; and if no event ever met an early entry, those are all early entries there are.
   */
  lemma OrphansAreBounded(timeout: nat, steps: seq<Step>)
    requires IsRun(Init(timeout), steps)
    ensures |ExpiringIds(Run(Init(timeout), steps))| <= |RecentEvents(timeout, steps)|
    ensures (forall j :: !MeetsEarly(timeout, steps, j)) ==>
              EarlyIds(Run(Init(timeout), steps)) == ExpiringIds(Run(Init(timeout), steps))
  {
    var t := Run(Init(timeout), steps);
    forall id | id in ExpiringIds(t)
      ensures exists i :: i in RecentEvents(timeout, steps) && i < |steps| && IsEventFor(steps[i], id)
    {
      var i := EarlyEntriesExpire(timeout, steps, id);
      assert i in RecentEvents(timeout, steps);
    }
    ImageIsNoLarger(steps, ExpiringIds(t), RecentEvents(timeout, steps));
    if forall j :: !MeetsEarly(timeout, steps, j) {
      forall id | id in EarlyIds(t) ensures id in ExpiringIds(t) {
        var i := EarlyEntryHistory(timeout, steps, id);
        forall j | i < j < |steps| ensures !IsEventFor(steps[j], id) {
          assert !MeetsEarly(timeout, steps, j);
        }
      }
    }
  }

  /** `cancelAll` empties the record and leaves every promise it held settled. */
  lemma CancelAllSettlesEverythingHeld(timeout: nat, steps: seq<Step>, message: Option<string>)
    requires IsRun(Init(timeout), steps)
    ensures var t := Run(Init(timeout), steps);
            var u := Apply(t, CancelAll(message));
            && u.promises == map[]
            && forall id | id in t.promises ::
                 var c := t.promises[id].cell;
                 c < |u.cells| && u.cells[c].outcome ==
                   if t.cells[c].outcome.Pending? then Rejected(Cancelled(message)) else t.cells[c].outcome
  {
    var t := Run(Init(timeout), steps);
    RunInv(Init(timeout), steps);
    var u := Apply(t, CancelAll(message));
    forall id | id in t.promises
      ensures var c := t.promises[id].cell;
              c < |u.cells| && u.cells[c].outcome ==
                if t.cells[c].outcome.Pending? then Rejected(Cancelled(message)) else t.cells[c].outcome
    {
      assert EntryOk(t, id);
      if t.cells[t.promises[id].cell].outcome.Pending? {
        assert HoldsCell(t, t.promises.Keys, t.promises[id].cell);
      }
    }
  }
}
