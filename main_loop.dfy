/** The polling loop of `main`: each round enters the daily action (delay 5)
    and the routine action (delay `toast_time_seconds`), both at priority 1,
    runs the scheduler until both have fired, and then recomputes the
    `repeated` flag from the clock. Rounds are given as inputs; a finite
    list of them stands for a prefix of the endless loop. */
module MainLoop {
  import opened Wrappers
  import opened Helper
  import opened JiraClient
  import opened Triggers

  /** What a scheduled event calls: the daily action with the flag value
      passed as its argument, or the routine action. */
  datatype Task = DailyToast(repeated: bool) | RoutineToast

  /** An entry of the scheduler's queue; `time` is the delay from the start
      of the round, at which both entries are made. */
  datatype Event = Event(time: int, priority: int, sequence: nat, task: Task)

  /** The scheduler's order: earlier time, then lower priority value, then
      earlier entry. */
  predicate Before(a: Event, b: Event)
  {
    a.time < b.time
    || (a.time == b.time && (a.priority < b.priority
                             || (a.priority == b.priority && a.sequence < b.sequence)))
  }

  /** The queue kept in the order the scheduler pops it. */
  function Insert(queue: seq<Event>, e: Event): seq<Event>
  {
    if queue == [] then [e]
    else if Before(e, queue[0]) then [e] + queue
    else [queue[0]] + Insert(queue[1..], e)
  }

  /** No entry is due before an entry ahead of it. */
  predicate Sorted(queue: seq<Event>)
  {
    forall i, j :: 0 <= i < j < |queue| ==> !Before(queue[j], queue[i])
  }

  /** Putting an entry due no later than any queued one at the front keeps
      the queue ordered. */
  lemma ConsSorted(x: Event, queue: seq<Event>)
    requires Sorted(queue)
    requires forall k :: 0 <= k < |queue| ==> !Before(queue[k], x)
    ensures Sorted([x] + queue)
  {
    var r := [x] + queue;
    forall i, j | 0 <= i < j < |r| ensures !Before(r[j], r[i]) {
      assert r[j] == queue[j - 1];
      if i > 0 { assert r[i] == queue[i - 1]; }
    }
  }

  /** Inserting into an ordered queue keeps it ordered and adds exactly the
      new entry to the entries already there. */
  lemma {:induction false} InsertSorted(queue: seq<Event>, e: Event)
    requires Sorted(queue)
    ensures Sorted(Insert(queue, e))
    ensures multiset(Insert(queue, e)) == multiset(queue) + multiset{e}
  {
    if queue == [] {
    } else if Before(e, queue[0]) {
      forall k | 0 <= k < |queue| ensures !Before(queue[k], e) {
        if k > 0 { assert !Before(queue[k], queue[0]); }
      }
      ConsSorted(e, queue);
    } else {
      var rest := queue[1..];
      SortedSuffix(queue, 1);
      InsertSorted(rest, e);
      var ins := Insert(rest, e);
      forall k | 0 <= k < |ins| ensures !Before(ins[k], queue[0]) {
        assert ins[k] in multiset(ins);
        if ins[k] != e {
          assert ins[k] in rest;
          var m :| 0 <= m < |rest| && rest[m] == ins[k];
          assert queue[m + 1] == ins[k];
        }
      }
      ConsSorted(queue[0], ins);
      assert queue == [queue[0]] + rest;
    }
  }

  /** What remains after popping from an ordered queue is ordered. */
  lemma SortedSuffix(queue: seq<Event>, k: nat)
    requires Sorted(queue) && k <= |queue|
    ensures Sorted(queue[k..])
  {
    var q := queue[k..];
    forall i, j | 0 <= i < j < |q| ensures !Before(q[j], q[i]) {
      assert q[i] == queue[k + i] && q[j] == queue[k + j];
    }
  }

  function Tasks(queue: seq<Event>): seq<Task>
  {
    seq(|queue|, i requires 0 <= i < |queue| => queue[i].task)
  }

  /** What the outside world supplies to one round: the clock the daily check
      reads, today's date as `%Y-%m-%d`, the tracker's answer to the today
      search, the recent window start for a given number of minutes (the
      clock minus that many minutes as `%Y-%m-%d %H:%M`), the answer to the
      recent search, and the clock read when the flag is updated. */
  datatype RoundInput = RoundInput(
    dailyClock: ClockTime,
    today: string,
    todaySearch: SearchResult,
    windowStart: int -> string,
    recentSearch: SearchResult,
    updateClock: ClockTime)

  function Execute(t: Triggers, isWindows: bool, task: Task, inp: RoundInput): ActionOutcome
  {
    match task
    case DailyToast(repeated) =>
      JiraDailyToast(t, isWindows, repeated, inp.dailyClock, inp.today, inp.todaySearch)
    case RoutineToast =>
      JiraRoutineToast(t, isWindows, inp.windowStart, inp.recentSearch)
  }

  function Sent(o: ActionOutcome): seq<Notification>
  {
    if o.notification.Some? then [o.notification.value] else []
  }

  /** Running a queue: the notifications and searches of the actions, how
      many events were popped, and whether an action raised. */
  datatype AgendaOutcome = AgendaOutcome(sent: seq<Notification>, queries: seq<string>, ran: nat, raised: bool)

  /** `scheduler.run()`: pops and calls each event in order; an exception
      from an action leaves the run with the rest of the queue in place. */
  function RunTasks(t: Triggers, isWindows: bool, tasks: seq<Task>, inp: RoundInput): (r: AgendaOutcome)
    ensures r.ran <= |tasks|
    ensures !r.raised ==> r.ran == |tasks|
  {
    if tasks == [] then AgendaOutcome([], [], 0, false)
    else
      var o := Execute(t, isWindows, tasks[0], inp);
      if o.raised then AgendaOutcome(Sent(o), o.queries, 1, true)
      else
        var rest := RunTasks(t, isWindows, tasks[1..], inp);
        AgendaOutcome(Sent(o) + rest.sent, o.queries + rest.queries, rest.ran + 1, rest.raised)
  }

  function Then(sent: seq<Notification>, queries: seq<string>, ran: nat, r: AgendaOutcome): AgendaOutcome
  {
    AgendaOutcome(sent + r.sent, queries + r.queries, ran + r.ran, r.raised)
  }

  lemma RunTasksStep(t: Triggers, isWindows: bool, tasks: seq<Task>, inp: RoundInput)
    requires tasks != []
    ensures var o := Execute(t, isWindows, tasks[0], inp);
      RunTasks(t, isWindows, tasks, inp)
      == if o.raised then AgendaOutcome(Sent(o), o.queries, 1, true)
         else Then(Sent(o), o.queries, 1, RunTasks(t, isWindows, tasks[1..], inp))
  {
  }

  lemma ThenThen(s1: seq<Notification>, q1: seq<string>, n1: nat,
                 s2: seq<Notification>, q2: seq<string>, n2: nat, r: AgendaOutcome)
    ensures Then(s1, q1, n1, Then(s2, q2, n2, r)) == Then(s1 + s2, q1 + q2, n1 + n2, r)
  {
    assert s1 + (s2 + r.sent) == s1 + s2 + r.sent;
    assert q1 + (q2 + r.queries) == q1 + q2 + r.queries;
  }

  /** The part of Python's `sched.scheduler` the loop uses. */
  class Scheduler {
    var queue: seq<Event>
    var counter: nat

    /** The queue is in the order `run` pops it. */
    predicate Valid()
      reads this
    {
      Sorted(queue)
    }

    constructor ()
      ensures Valid() && queue == [] && counter == 0
    {
      queue := [];
      counter := 0;
    }

    /** `enter(delay, priority, action, argument)`. */
    method Enter(delay: int, priority: int, task: Task)
      requires Valid()
      modifies this
      ensures Valid()
      ensures queue == Insert(old(queue), Event(delay, priority, old(counter), task))
      ensures multiset(queue) == multiset(old(queue)) + multiset{Event(delay, priority, old(counter), task)}
      ensures counter == old(counter) + 1
    {
      InsertSorted(queue, Event(delay, priority, counter, task));
      queue := Insert(queue, Event(delay, priority, counter, task));
      counter := counter + 1;
    }

    /** `run()`: calls the queued actions in order until the queue is empty
      or an action raises. */
    method Run(t: Triggers, isWindows: bool, inp: RoundInput)
      returns (sent: seq<Notification>, queries: seq<string>, raised: bool)
      requires Valid()
      modifies this
      ensures Valid()
      ensures var r := RunTasks(t, isWindows, Tasks(old(queue)), inp);
        sent == r.sent && queries == r.queries && raised == r.raised && queue == old(queue)[r.ran..]
      ensures counter == old(counter)
    {
      sent, queries, raised := [], [], false;
      ghost var start := queue;
      while queue != []
        invariant |queue| <= |start| && queue == start[|start| - |queue|..]
        invariant counter == old(counter)
        invariant RunTasks(t, isWindows, Tasks(start), inp)
               == Then(sent, queries, |start| - |queue|, RunTasks(t, isWindows, Tasks(queue), inp))
        decreases |queue|
      {
        ghost var done := |start| - |queue|;
        var event := queue[0];
        var o := Execute(t, isWindows, event.task, inp);
        PopStep(t, isWindows, inp, start, queue, sent, queries);
        queue := queue[1..];
        sent, queries := sent + Sent(o), queries + o.queries;
        if o.raised {
          raised := true;
          SortedSuffix(start, |start| - |queue|);
          return;
        }
      }
    }
  }

  /** Popping one event keeps the run's outcome split into what has been
      done and what the rest of the queue will do. */
  lemma PopStep(t: Triggers, isWindows: bool, inp: RoundInput, start: seq<Event>, queue: seq<Event>,
                sent: seq<Notification>, queries: seq<string>)
    requires queue != [] && |queue| <= |start| && queue == start[|start| - |queue|..]
    requires RunTasks(t, isWindows, Tasks(start), inp)
          == Then(sent, queries, |start| - |queue|, RunTasks(t, isWindows, Tasks(queue), inp))
    ensures var o := Execute(t, isWindows, queue[0].task, inp);
      && queue[1..] == start[|start| - |queue[1..]|..]
      && if o.raised then
           RunTasks(t, isWindows, Tasks(start), inp)
           == AgendaOutcome(sent + Sent(o), queries + o.queries, |start| - |queue[1..]|, true)
         else
           RunTasks(t, isWindows, Tasks(start), inp)
           == Then(sent + Sent(o), queries + o.queries, |start| - |queue[1..]|,
                   RunTasks(t, isWindows, Tasks(queue[1..]), inp))
  {
    var done := |start| - |queue|;
    assert Tasks(queue)[0] == queue[0].task && Tasks(queue)[1..] == Tasks(queue[1..]);
    RunTasksStep(t, isWindows, Tasks(queue), inp);
    var o := Execute(t, isWindows, queue[0].task, inp);
    assert queue[1..] == start[done + 1..];
    if !o.raised {
      ThenThen(sent, queries, done, Sent(o), o.queries, 1, RunTasks(t, isWindows, Tasks(queue[1..]), inp));
    }
  }

  const DailyDelay := 5
  const Priority := 1

  /** The queue at the start of a round, entries numbered from `counter`. */
  function RoundAgenda(repeated: bool, interval: int, counter: nat): seq<Event>
  {
    var daily := Event(DailyDelay, Priority, counter, DailyToast(repeated));
    var routine := Event(interval, Priority, counter + 1, RoutineToast);
    Insert(Insert([], daily), routine)
  }

  /** The flag update after a round, as written: the flag becomes false only
      when the clock does not match and the flag was true. */
  function NextRepeated(timeMatches: bool, repeated: bool): bool
  {
    if !timeMatches && repeated then false else true
  }

  /** Why the loop stops: `enter(None, ...)` raises when `toast_time_seconds`
      is absent, and the recent search's failure is not caught. */
  datatype Halt = IntervalMissing | RecentSearchFailed

  datatype LoopState = Running(repeated: bool) | Stopped(reason: Halt)

  datatype RunOutcome = RunOutcome(sent: seq<Notification>, queries: seq<string>, state: LoopState)

  /** One iteration of `while True` in `main`, starting from the flag
      `repeated`. */
  function Round(t: Triggers, isWindows: bool, repeated: bool, inp: RoundInput): RunOutcome
  {
    match t.config.toastTimeSeconds
    case None => RunOutcome([], [], Stopped(IntervalMissing))
    case Some(interval) =>
      var r := RunTasks(t, isWindows, Tasks(RoundAgenda(repeated, interval, 0)), inp);
      if r.raised then RunOutcome(r.sent, r.queries, Stopped(RecentSearchFailed))
      else
        var timeMatches := IsTimeEqualToInput(t.config.dailyToastTime, inp.updateClock);
        RunOutcome(r.sent, r.queries, Running(NextRepeated(timeMatches, repeated)))
  }

  /** Consecutive rounds, each starting from the flag the previous one left. */
  function RunRounds(t: Triggers, isWindows: bool, repeated: bool, rounds: seq<RoundInput>): RunOutcome
    decreases |rounds|
  {
    if rounds == [] then RunOutcome([], [], Running(repeated))
    else
      var r := Round(t, isWindows, repeated, rounds[0]);
      if r.state.Stopped? then r
      else
        var rest := RunRounds(t, isWindows, r.state.repeated, rounds[1..]);
        RunOutcome(r.sent + rest.sent, r.queries + rest.queries, rest.state)
  }

  /** The loop of `main` over the given rounds: the flag starts false, each
      round enters both actions into the one scheduler, runs it, and updates
      the flag. */
  method RunScheduler(config: Config, isWindows: bool, rounds: seq<RoundInput>)
    returns (sent: seq<Notification>, queries: seq<string>, state: LoopState)
    ensures RunOutcome(sent, queries, state) == RunRounds(NewTriggers(config), isWindows, false, rounds)
  {
    var trigger := NewTriggers(config);
    var scheduler := new Scheduler();
    var repeated := false;
    sent, queries, state := [], [], Running(false);
    for i := 0 to |rounds|
      invariant scheduler.queue == [] && scheduler.Valid()
      invariant state == Running(repeated)
      invariant RunRounds(trigger, isWindows, false, rounds)
             == Prefixed(sent, queries, RunRounds(trigger, isWindows, repeated, rounds[i..]))
    {
      LoopStep(trigger, isWindows, rounds, i, repeated, sent, queries);
      var counter := scheduler.counter;
      scheduler.Enter(DailyDelay, Priority, DailyToast(repeated));
      if config.toastTimeSeconds.None? {
        state := Stopped(IntervalMissing);
        return;
      }
      scheduler.Enter(config.toastTimeSeconds.value, Priority, RoutineToast);
      RoundFromAgenda(trigger, isWindows, repeated, rounds[i], counter);
      var s, q, raised := scheduler.Run(trigger, isWindows, rounds[i]);
      sent, queries := sent + s, queries + q;
      if raised {
        state := Stopped(RecentSearchFailed);
        return;
      }
      if !IsTimeEqualToInput(config.dailyToastTime, rounds[i].updateClock) && repeated {
        repeated := false;
      } else {
        repeated := true;
      }
      state := Running(repeated);
    }
    assert rounds[|rounds|..] == [];
  }

  /** A round run from the scheduler's queue, whatever the entry numbers,
      gives the outcome `Round` describes. */
  lemma RoundFromAgenda(t: Triggers, isWindows: bool, repeated: bool, inp: RoundInput, counter: nat)
    requires t.config.toastTimeSeconds.Some?
    ensures var a := RunTasks(t, isWindows, Tasks(RoundAgenda(repeated, t.config.toastTimeSeconds.value, counter)), inp);
      var r := Round(t, isWindows, repeated, inp);
      && a.sent == r.sent && a.queries == r.queries
      && (a.raised <==> r.state.Stopped?)
      && (a.raised ==> r.state == Stopped(RecentSearchFailed))
      && (!a.raised ==> r.state == Running(NextRepeated(IsTimeEqualToInput(t.config.dailyToastTime, inp.updateClock), repeated)))
  {
    RoundOrder(repeated, t.config.toastTimeSeconds.value, counter);
    RoundOrder(repeated, t.config.toastTimeSeconds.value, 0);
  }

  /** The loop's invariant carried over one round. */
  lemma LoopStep(t: Triggers, isWindows: bool, rounds: seq<RoundInput>, i: nat, repeated: bool,
                 sent: seq<Notification>, queries: seq<string>)
    requires i < |rounds|
    requires RunRounds(t, isWindows, false, rounds) == Prefixed(sent, queries, RunRounds(t, isWindows, repeated, rounds[i..]))
    ensures var r := Round(t, isWindows, repeated, rounds[i]);
      if r.state.Stopped? then RunRounds(t, isWindows, false, rounds) == Prefixed(sent, queries, r)
      else RunRounds(t, isWindows, false, rounds)
           == Prefixed(sent + r.sent, queries + r.queries, RunRounds(t, isWindows, r.state.repeated, rounds[i + 1..]))
  {
    var tail := rounds[i..];
    assert tail[0] == rounds[i] && tail[1..] == rounds[i + 1..];
    RunRoundsStep(t, isWindows, repeated, tail);
    var r := Round(t, isWindows, repeated, rounds[i]);
    if !r.state.Stopped? {
      PrefixedTwice(sent, queries, r.sent, r.queries, RunRounds(t, isWindows, r.state.repeated, rounds[i + 1..]));
    }
  }

  lemma PrefixedTwice(s1: seq<Notification>, q1: seq<string>, s2: seq<Notification>, q2: seq<string>, r: RunOutcome)
    ensures Prefixed(s1, q1, Prefixed(s2, q2, r)) == Prefixed(s1 + s2, q1 + q2, r)
  {
    assert s1 + (s2 + r.sent) == s1 + s2 + r.sent;
    assert q1 + (q2 + r.queries) == q1 + q2 + r.queries;
  }

  lemma RunRoundsStep(t: Triggers, isWindows: bool, repeated: bool, rounds: seq<RoundInput>)
    requires rounds != []
    ensures var r := Round(t, isWindows, repeated, rounds[0]);
      RunRounds(t, isWindows, repeated, rounds)
      == if r.state.Stopped? then r
         else Prefixed(r.sent, r.queries, RunRounds(t, isWindows, r.state.repeated, rounds[1..]))
  {
  }

  function Prefixed(sent: seq<Notification>, queries: seq<string>, r: RunOutcome): RunOutcome
  {
    RunOutcome(sent + r.sent, queries + r.queries, r.state)
  }

  /** Both entries are made at the same instant with the same priority, so
      the daily action runs first unless `toast_time_seconds` is below 5
      (on a tie the earlier entry wins); the queue holds each action once. */
  lemma RoundOrder(repeated: bool, interval: int, counter: nat)
    ensures Tasks(RoundAgenda(repeated, interval, counter))
         == if interval < DailyDelay then [RoutineToast, DailyToast(repeated)]
            else [DailyToast(repeated), RoutineToast]
  {
    var daily := Event(DailyDelay, Priority, counter, DailyToast(repeated));
    var routine := Event(interval, Priority, counter + 1, RoutineToast);
    assert Insert([], daily) == [daily];
    if interval < DailyDelay {
      assert RoundAgenda(repeated, interval, counter) == [routine, daily];
    } else {
      assert [daily][1..] == [];
      assert !Before(routine, daily);
      assert Insert([daily], routine) == [daily] + Insert([], routine);
      assert RoundAgenda(repeated, interval, counter) == [daily, routine];
    }
  }
}
