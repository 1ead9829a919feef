/**
 Deferred replies (packages/core/src/deferral/deferred-promise-tracker.ts): promises for events
 that have not happened yet, keyed by message id, with the timers that settle or forget them.

 Promises are cells that settle at most once.  Timers fire when they are due and time does not
 pass a due timer; which of several due timers fires first is left open.
 */
module Deferral {
  import opened Wrappers
  import opened Messages

  datatype Reason = TimedOut | Cancelled(message: Option<string>) | ErrorEvent(event: Event)

  datatype Outcome = Pending | Fulfilled(event: Event) | Rejected(reason: Reason)

  /** A promise: whose id it answers, when it was created, how it stands. */
  datatype Cell = Cell(owner: string, born: nat, outcome: Outcome)

  datatype Action = RejectCell(cell: nat) | DropEntry(id: string)

  datatype Timer = Timer(due: nat, action: Action)

  /** An entry of the promise record; `live` is false when resolve and reject do nothing. */
  datatype Tracked = Tracked(cell: nat, live: bool, timer: nat)

  datatype Tracker = Tracker(
    timeout: nat,
    now: nat,
    promises: map<string, Tracked>,
    cells: seq<Cell>,
    timers: map<nat, Timer>,
    nextTimer: nat)

  const DEFAULT_TIMEOUT: nat := 3000

  /** The delay the timer facility grants: anything outside its range becomes one millisecond. */
  function Delay(d: nat): nat {
    if 1 <= d <= 2147483647 then d else 1
  }

  function Init(timeout: nat): Tracker {
    Tracker(timeout, 0, map[], [], map[], 0)
  }

  /** First settle wins. */
  function Settle(cells: seq<Cell>, c: nat, o: Outcome): seq<Cell> {
    if c < |cells| && cells[c].outcome.Pending? then cells[c := cells[c].(outcome := o)] else cells
  }

  // ---------- one call each ----------

  /** A response or an error for `id`, with the outcome it settles a waiting promise to. */
  function AfterEvent(t: Tracker, id: string, o: Outcome): Tracker {
    if id in t.promises then
      var e := t.promises[id];
      t.(cells := if e.live then Settle(t.cells, e.cell, o) else t.cells, timers := t.timers - {e.timer})
    else
      t.(promises := t.promises[id := Tracked(|t.cells|, false, t.nextTimer)],
         cells := t.cells + [Cell(id, t.now, o)],
         timers := t.timers[t.nextTimer := Timer(t.now + Delay(2 * t.timeout), DropEntry(id))],
         nextTimer := t.nextTimer + 1)
  }

  function AfterPromise(t: Tracker, id: string): Tracker {
    if id in t.promises then t
    else
      t.(promises := t.promises[id := Tracked(|t.cells|, true, t.nextTimer)],
         cells := t.cells + [Cell(id, t.now, Pending)],
         timers := t.timers[t.nextTimer := Timer(t.now + Delay(t.timeout), RejectCell(|t.cells|))],
         nextTimer := t.nextTimer + 1)
  }

  /** The promise that `promise(id)` hands out. */
  function HandedOut(t: Tracker, id: string): nat {
    if id in t.promises then t.promises[id].cell else |t.cells|
  }

  function AfterDelete(t: Tracker, id: string): Tracker {
    t.(promises := t.promises - {id})
  }

  function AfterCancel(t: Tracker, id: string, message: Option<string>): Tracker {
    if id in t.promises then
      var e := t.promises[id];
      t.(cells := if e.live then Settle(t.cells, e.cell, Rejected(Cancelled(message))) else t.cells,
         timers := t.timers - {e.timer},
         promises := t.promises - {id})
    else t
  }

  /** Cancelling the entries of `ids`, all at once. */
  function AfterCancelSet(t: Tracker, ids: set<string>, message: Option<string>): Tracker {
    t.(cells := seq(|t.cells|, i requires 0 <= i < |t.cells| =>
                  if t.cells[i].outcome.Pending? && HoldsCell(t, ids, i)
                  then t.cells[i].(outcome := Rejected(Cancelled(message))) else t.cells[i]),
       timers := t.timers - (set id | id in t.promises && id in ids :: t.promises[id].timer),
       promises := t.promises - ids)
  }

  predicate HoldsCell(t: Tracker, ids: set<string>, c: nat) {
    exists id | id in t.promises :: id in ids && t.promises[id].live && t.promises[id].cell == c
  }

  function AfterFire(t: Tracker, k: nat): Tracker
    requires k in t.timers
  {
    match t.timers[k].action
    case RejectCell(c) => t.(cells := Settle(t.cells, c, Rejected(TimedOut)), timers := t.timers - {k})
    case DropEntry(id) => t.(promises := t.promises - {id}, timers := t.timers - {k})
  }

  // ---------- runs ----------

  datatype Step =
    | Promise(id: string)
    | Response(event: Event)
    | Failure(event: Event)
    | Cancel(id: string, message: Option<string>)
    | CancelAll(message: Option<string>)
    | Delete(id: string)
    | Tick
    | Fire(timer: nat)

  /** A timer fires only when due, and time stands still while one is due. */
  predicate Enabled(t: Tracker, s: Step) {
    match s
    case Tick => forall k | k in t.timers :: t.timers[k].due > t.now
    case Fire(k) => k in t.timers && t.timers[k].due <= t.now
    case _ => true
  }

  function Apply(t: Tracker, s: Step): Tracker
    requires Enabled(t, s)
  {
    match s
    case Promise(id) => AfterPromise(t, id)
    case Response(e) => AfterEvent(t, e.messageId, Fulfilled(e))
    case Failure(e) => AfterEvent(t, e.messageId, Rejected(ErrorEvent(e)))
    case Cancel(id, m) => AfterCancel(t, id, m)
    case CancelAll(m) => AfterCancelSet(t, t.promises.Keys, m)
    case Delete(id) => AfterDelete(t, id)
    case Tick => t.(now := t.now + 1)
    case Fire(k) => AfterFire(t, k)
  }

  predicate IsRun(t: Tracker, steps: seq<Step>)
    decreases |steps|, 0
  {
    steps != [] ==>
      IsRun(t, steps[..|steps| - 1]) && Enabled(Run(t, steps[..|steps| - 1]), steps[|steps| - 1])
  }

  /** The state after the steps; the last step is applied last. */
  function Run(t: Tracker, steps: seq<Step>): Tracker
    requires IsRun(t, steps)
    decreases |steps|, 1
  {
    if steps == [] then t
    else Apply(Run(t, steps[..|steps| - 1]), steps[|steps| - 1])
  }

  // ---------- the code ----------

  /**
   The tracker as the source writes it: an object whose methods insert into, settle and delete
   from the promise record, and arm or clear timers.
   */
  class DeferralTracker {
    var timeout: nat
    var now: nat
    var promises: map<string, Tracked>
    var cells: seq<Cell>
    var timers: map<nat, Timer>
    var nextTimer: nat

    function State(): Tracker
      reads this
    {
      Tracker(timeout, now, promises, cells, timers, nextTimer)
    }

    constructor (timeout: Option<nat>)
      ensures State() == Init(match timeout { case Some(d) => d case None => DEFAULT_TIMEOUT })
    {
      this.timeout := match timeout { case Some(d) => d case None => DEFAULT_TIMEOUT };
      now, promises, cells, timers, nextTimer := 0, map[], [], map[], 0;
    }

    method SetTimeout(action: Action, delay: nat) returns (timer: nat)
      modifies `timers, `nextTimer
      ensures timer == old(nextTimer) && nextTimer == old(nextTimer) + 1
      ensures timers == old(timers)[timer := Timer(now + Delay(delay), action)]
    {
      timer := nextTimer;
      timers := timers[timer := Timer(now + Delay(delay), action)];
      nextTimer := nextTimer + 1;
    }

    method ClearTimeout(timer: nat)
      modifies `timers
      ensures timers == old(timers) - {timer}
    {
      timers := timers - {timer};
    }

    method NewPromise(id: string, outcome: Outcome) returns (cell: nat)
      modifies `cells
      ensures cell == |old(cells)| && cells == old(cells) + [Cell(id, now, outcome)]
    {
      cell := |cells|;
      cells := cells + [Cell(id, now, outcome)];
    }

    /** The `resolve` and `reject` functions of an entry. */
    method SettleEntry(entry: Tracked, outcome: Outcome)
      modifies `cells
      ensures cells == if entry.live then Settle(old(cells), entry.cell, outcome) else old(cells)
    {
      if entry.live && entry.cell < |cells| && cells[entry.cell].outcome.Pending? {
        cells := cells[entry.cell := cells[entry.cell].(outcome := outcome)];
      }
    }

    method ResponseEvent(event: Event)
      modifies this
      ensures State() == Apply(old(State()), Response(event))
    {
      var id := event.messageId;
      if id in promises {
        SettleEntry(promises[id], Fulfilled(event));
        ClearTimeout(promises[id].timer);
      } else {
        var self := NewPromise(id, Fulfilled(event));
        var timer := SetTimeout(DropEntry(id), timeout * 2);
        promises := promises[id := Tracked(self, false, timer)];
      }
    }

    method ErrorEvent(event: Event)
      modifies this
      ensures State() == Apply(old(State()), Failure(event))
    {
      var id := event.messageId;
      if id in promises {
        SettleEntry(promises[id], Rejected(Reason.ErrorEvent(event)));
        ClearTimeout(promises[id].timer);
      } else {
        var self := NewPromise(id, Rejected(Reason.ErrorEvent(event)));
        var timer := SetTimeout(DropEntry(id), timeout * 2);
        promises := promises[id := Tracked(self, false, timer)];
      }
    }

    method Cancel(id: string, message: Option<string>)
      modifies this
      ensures State() == Apply(old(State()), Step.Cancel(id, message))
    {
      if id in promises {
        ClearTimeout(promises[id].timer);
        SettleEntry(promises[id], Rejected(Cancelled(message)));
        Delete(id);
      }
    }

    method CancelAll(message: Option<string>)
      modifies this
      ensures State() == Apply(old(State()), Step.CancelAll(message))
    {
      ghost var before := State();
      ghost var done: set<string> := {};
      var ids := promises.Keys;
      assert before.promises - {} == before.promises;
      assert before.timers - {} == before.timers;
      while ids != {}
        invariant done !! ids && done + ids == before.promises.Keys
        invariant State() == AfterCancelSet(before, done, message)
        decreases ids
      {
        var id :| id in ids;
        ids := ids - {id};
        CancelExtends(before, done, id, message);
        Cancel(id, message);
        done := done + {id};
      }
      assert done == before.promises.Keys;
    }

    method PromiseFor(id: string) returns (self: nat)
      modifies this
      ensures State() == Apply(old(State()), Promise(id))
      ensures self == HandedOut(old(State()), id)
    {
      if id in promises {
        return promises[id].cell;
      }
      self := NewPromise(id, Pending);
      var timer := SetTimeout(RejectCell(self), timeout);
      promises := promises[id := Tracked(self, true, timer)];
    }

    method Delete(id: string)
      modifies `promises
      ensures State() == Apply(old(State()), Step.Delete(id))
    {
      promises := promises - {id};
    }

    /** The timer facility runs the action of a due timer. */
    method FireTimer(k: nat)
      requires k in timers && timers[k].due <= now
      modifies this
      ensures State() == Apply(old(State()), Fire(k))
    {
      var timer := timers[k];
      ClearTimeout(k);
      match timer.action
      case RejectCell(c) => SettleEntry(Tracked(c, true, k), Rejected(TimedOut));
      case DropEntry(id) => Delete(id);
    }
  }

  /** Cancelling one more entry after a set of them is cancelling the larger set. */
  lemma CancelExtends(t: Tracker, ids: set<string>, id: string, message: Option<string>)
    requires id in t.promises && id !in ids
    ensures AfterCancel(AfterCancelSet(t, ids, message), id, message) == AfterCancelSet(t, ids + {id}, message)
  {
    var u := AfterCancelSet(t, ids, message);
    var v := AfterCancel(u, id, message);
    var w := AfterCancelSet(t, ids + {id}, message);
    assert id in u.promises && u.promises[id] == t.promises[id];
    assert v.promises == w.promises;
    var cleared := set i | i in t.promises && i in ids :: t.promises[i].timer;
    var cleared' := set i | i in t.promises && i in ids + {id} :: t.promises[i].timer;
    assert cleared' == cleared + {t.promises[id].timer};
    assert v.timers == w.timers;
    forall c: nat | c < |t.cells| ensures v.cells[c] == w.cells[c] {
      if HoldsCell(t, ids + {id}, c) && !HoldsCell(t, ids, c) {
        var i :| i in t.promises && i in ids + {id} && t.promises[i].live && t.promises[i].cell == c;
        assert i == id;
      }
      if t.promises[id].live && t.promises[id].cell == c {
        assert HoldsCell(t, ids + {id}, c);
      }
    }
    assert v.cells == w.cells;
  }
}
