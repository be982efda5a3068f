/** What the polling loop guarantees over one round and over consecutive
    rounds: which action runs when, when each kind of notification is sent,
    how the `repeated` flag moves, and worked scenarios. */
module LoopProperties {
  import opened Wrappers
  import opened Helper
  import opened JiraClient
  import opened Triggers
  import opened MainLoop

  /** How many of the sent notifications carry the given title. */
  function CountTitled(sent: seq<Notification>, title: string): nat
  {
    if sent == [] then 0
    else (if sent[0].title == title then 1 else 0) + CountTitled(sent[1..], title)
  }

  lemma {:induction false} CountConcat(a: seq<Notification>, b: seq<Notification>, title: string)
    ensures CountTitled(a + b, title) == CountTitled(a, title) + CountTitled(b, title)
  {
    if a == [] {
      assert a + b == b;
    } else {
      assert (a + b)[0] == a[0] && (a + b)[1..] == a[1..] + b;
      CountConcat(a[1..], b, title);
    }
  }

  /** The daily action's entry condition for a round. */
  predicate DailyGate(t: Triggers, repeated: bool, inp: RoundInput)
  {
    IsTimeEqualToInput(t.config.dailyToastTime, inp.dailyClock) && !repeated
  }

  /** In a round both actions run exactly once, the daily one with the flag
      the round started from and first unless `toast_time_seconds` is below
      5; the round stops, before the flag update, exactly when the recent
      search fails, and if the routine action ran first the daily one then
      never runs. */
  lemma RoundRunsBothActions(t: Triggers, isWindows: bool, repeated: bool, inp: RoundInput)
    requires t.config.toastTimeSeconds.Some?
    ensures var d := JiraDailyToast(t, isWindows, repeated, inp.dailyClock, inp.today, inp.todaySearch);
      var rt := JiraRoutineToast(t, isWindows, inp.windowStart, inp.recentSearch);
      var r := Round(t, isWindows, repeated, inp);
      && (r.state.Stopped? <==> rt.raised)
      && (r.state.Stopped? ==> r.state.reason == RecentSearchFailed)
      && if DailyDelay <= t.config.toastTimeSeconds.value then
           r.sent == Sent(d) + Sent(rt) && r.queries == d.queries + rt.queries
         else if rt.raised then
           r.sent == [] && r.queries == rt.queries
         else
           r.sent == Sent(rt) + Sent(d) && r.queries == rt.queries + d.queries
  {
    var interval := t.config.toastTimeSeconds.value;
    RoundOrder(repeated, interval, 0);
    var tasks := Tasks(RoundAgenda(repeated, interval, 0));
    RunTasksStep(t, isWindows, tasks, inp);
    RunTasksStep(t, isWindows, tasks[1..], inp);
    assert tasks[1..][1..] == [];
  }

  /** After a round that did not stop, the flag is false exactly when the
      clock at the update does not show the configured time and the flag was
      true. */
  lemma RoundFlagUpdate(t: Triggers, isWindows: bool, repeated: bool, inp: RoundInput)
    ensures var r := Round(t, isWindows, repeated, inp);
      r.state.Running? ==>
        (!r.state.repeated <==> !IsTimeEqualToInput(t.config.dailyToastTime, inp.updateClock) && repeated)
  {
  }

  /** A round sends a daily summary exactly when the daily gate is open, the
      search of today's tickets finds some, and the daily action gets to run
      (the interval is set, and a failed recent search did not end the round
      before it). */
  lemma RoundDailyCount(t: Triggers, isWindows: bool, repeated: bool, inp: RoundInput)
    ensures CountTitled(Round(t, isWindows, repeated, inp).sent, DailyTitle)
         == if DailyGate(t, repeated, inp) && inp.todaySearch.Found? && inp.todaySearch.keys != []
               && t.config.toastTimeSeconds.Some?
               && !(t.config.toastTimeSeconds.value < DailyDelay && inp.recentSearch.SearchFailed?)
            then 1 else 0
  {
    if t.config.toastTimeSeconds.Some? {
      RoundRunsBothActions(t, isWindows, repeated, inp);
      var d := JiraDailyToast(t, isWindows, repeated, inp.dailyClock, inp.today, inp.todaySearch);
      var rt := JiraRoutineToast(t, isWindows, inp.windowStart, inp.recentSearch);
      CountConcat(Sent(d), Sent(rt), DailyTitle);
      CountConcat(Sent(rt), Sent(d), DailyTitle);
    }
  }

  /** Whatever the flag, a round searches the recent window and sends a
      routine report exactly when that search finds tickets. */
  lemma RoundRoutineCount(t: Triggers, isWindows: bool, repeated: bool, inp: RoundInput)
    requires t.config.toastTimeSeconds.Some?
    ensures var r := Round(t, isWindows, repeated, inp);
      && RecentJql(t.jira, inp.windowStart(t.jira.ticketsFromLastMin)) in r.queries
      && CountTitled(r.sent, RoutineTitle)
         == if inp.recentSearch.Found? && inp.recentSearch.keys != [] then 1 else 0
  {
    RoundRunsBothActions(t, isWindows, repeated, inp);
    var d := JiraDailyToast(t, isWindows, repeated, inp.dailyClock, inp.today, inp.todaySearch);
    var rt := JiraRoutineToast(t, isWindows, inp.windowStart, inp.recentSearch);
    CountConcat(Sent(d), Sent(rt), RoutineTitle);
    CountConcat(Sent(rt), Sent(d), RoutineTitle);
  }

  /** Searches that find nothing never reach the notifier. */
  lemma {:induction false} EmptyResultsNeverNotify(t: Triggers, isWindows: bool, repeated: bool, rounds: seq<RoundInput>)
    requires forall i :: 0 <= i < |rounds| ==>
      (rounds[i].todaySearch.SearchFailed? || rounds[i].todaySearch.keys == [])
      && (rounds[i].recentSearch.SearchFailed? || rounds[i].recentSearch.keys == [])
    ensures RunRounds(t, isWindows, repeated, rounds).sent == []
    decreases |rounds|
  {
    if rounds != [] {
      var r := Round(t, isWindows, repeated, rounds[0]);
      if t.config.toastTimeSeconds.Some? {
        RoundRunsBothActions(t, isWindows, repeated, rounds[0]);
      }
      assert r.sent == [];
      if r.state.Running? {
        EmptyResultsNeverNotify(t, isWindows, r.state.repeated, rounds[1..]);
      }
    }
  }

  /** From a true flag, while the clock shows the configured time at every
      flag update, no daily summary is sent and the flag stays true. */
  lemma {:induction false} NoDailyOnceRepeated(t: Triggers, isWindows: bool, rounds: seq<RoundInput>)
    requires forall i :: 0 <= i < |rounds| ==> IsTimeEqualToInput(t.config.dailyToastTime, rounds[i].updateClock)
    ensures var o := RunRounds(t, isWindows, true, rounds);
      CountTitled(o.sent, DailyTitle) == 0 && (o.state.Running? ==> o.state.repeated)
    decreases |rounds|
  {
    if rounds != [] {
      var r := Round(t, isWindows, true, rounds[0]);
      RoundDailyCount(t, isWindows, true, rounds[0]);
      if r.state.Running? {
        NoDailyOnceRepeated(t, isWindows, rounds[1..]);
        CountConcat(r.sent, RunRounds(t, isWindows, true, rounds[1..]).sent, DailyTitle);
      }
    }
  }

  /** While the clock shows the configured time at every flag update, the
      flag is true after the first round and at most one daily summary is
      sent over all the rounds. */
  lemma AtMostOneDailyWhileMinuteMatches(t: Triggers, isWindows: bool, repeated: bool, rounds: seq<RoundInput>)
    requires forall i :: 0 <= i < |rounds| ==> IsTimeEqualToInput(t.config.dailyToastTime, rounds[i].updateClock)
    ensures var o := RunRounds(t, isWindows, repeated, rounds);
      CountTitled(o.sent, DailyTitle) <= 1 && (rounds != [] && o.state.Running? ==> o.state.repeated)
  {
    if rounds != [] {
      var r := Round(t, isWindows, repeated, rounds[0]);
      RoundDailyCount(t, isWindows, repeated, rounds[0]);
      if r.state.Running? {
        NoDailyOnceRepeated(t, isWindows, rounds[1..]);
        CountConcat(r.sent, RunRounds(t, isWindows, true, rounds[1..]).sent, DailyTitle);
      }
    }
  }

  /** As written, the flag does not stay false outside the configured
      minute: each round whose update sees another time flips it, so after
      `n` such rounds it is the start value flipped `n` times. */
  lemma {:induction false} FlagAlternatesOutsideMinute(t: Triggers, isWindows: bool, repeated: bool, rounds: seq<RoundInput>)
    requires forall i :: 0 <= i < |rounds| ==> !IsTimeEqualToInput(t.config.dailyToastTime, rounds[i].updateClock)
    ensures var o := RunRounds(t, isWindows, repeated, rounds);
      o.state.Running? ==> o.state.repeated == (if |rounds| % 2 == 0 then repeated else !repeated)
    decreases |rounds|
  {
    if rounds != [] {
      var r := Round(t, isWindows, repeated, rounds[0]);
      RunRoundsStep(t, isWindows, repeated, rounds);
      RoundFlagUpdate(t, isWindows, repeated, rounds[0]);
      if r.state.Running? {
        assert r.state.repeated == !repeated;
        var tail := rounds[1..];
        assert forall i :: 0 <= i < |tail| ==> tail[i] == rounds[i + 1];
        FlagAlternatesOutsideMinute(t, isWindows, !repeated, tail);
        var rest := RunRounds(t, isWindows, !repeated, tail);
        assert RunRounds(t, isWindows, repeated, rounds).state == rest.state;
        assert |tail| % 2 == 0 <==> |rounds| % 2 != 0;
      }
    }
  }

  /** Without a configuration file `toast_time_seconds` is absent, so the
      first round raises when it enters the routine action: nothing is
      searched or sent. */
  lemma MissingConfigFileStopsFirstRound(isWindows: bool, rounds: seq<RoundInput>)
    requires rounds != []
    ensures RunRounds(NewTriggers(LoadConfig(FileNotFound)), isWindows, false, rounds)
         == RunOutcome([], [], Stopped(IntervalMissing))
  {
  }
}
