/** Worked runs of the loop on a sample configuration: project `PRA`,
    daily time `09:00`, a 15-minute recent window, rounds every 600 seconds,
    sound on, on a platform other than Windows 10/11. */
module Scenarios {
  import opened Wrappers
  import opened Helper
  import opened JiraClient
  import opened Triggers
  import opened MainLoop
  import opened LoopProperties
  import Html
  import Text

  const Url := "https://jira.example.com"

  const SampleConfig := EmptyConfig.(
    projectNames := Some(["PRA"]),
    jiraApiUrl := Some(Url),
    dailyToastTime := Some("09:00"),
    ticketsFromLastMin := Some(15),
    toastTimeSeconds := Some(600),
    toastSound := Some(true))

  /** A round whose clock reads `h:m` throughout; today's search finds
      `today` and the recent search finds nothing. */
  function At(h: Hour, m: Minute, today: seq<string>): RoundInput
  {
    RoundInput(ClockTime(h, m), "2024-05-02", Found(today), (n: int) => "2024-05-02 08:45", Found([]), ClockTime(h, m))
  }

  const Keys2 := ["PRA-1", "PRA-2"]

  /** The line of a key that needs no escaping. */
  function PlainLink(key: string): string
  {
    "<a href='" + Url + "/browse/" + key + "'>" + key + "</a>"
  }

  /** The summary of `PRA-1` and `PRA-2`: one link per line, in order. */
  const Body2 := PlainLink("PRA-1") + "\n" + PlainLink("PRA-2") + "\n"

  lemma KeyLink(key: string)
    requires key == "PRA-1" || key == "PRA-2"
    ensures LinkLine(Url, key) == PlainLink(key)
  {
    Html.EscapeIdentity(key);
  }

  lemma TerminatedTwo(a: string, b: string)
    ensures Text.Terminated([a, b]) == a + "\n" + b + "\n"
  {
    assert [a, b][..1] == [a];
    assert [a][..0] == [];
    assert Text.Terminated([a]) == a + "\n";
    assert Text.Terminated([a, b]) == Text.Terminated([a]) + b + "\n";
  }

  lemma SummaryBody()
    ensures LinkBody(Some(Keys2), Some(Url)) == Body2
  {
    var l1, l2 := LinkLine(Url, "PRA-1"), LinkLine(Url, "PRA-2");
    assert l1 == PlainLink("PRA-1") by { KeyLink("PRA-1"); }
    assert l2 == PlainLink("PRA-2") by { KeyLink("PRA-2"); }
    assert LinkLines(Url, Keys2) == [l1, l2];
    assert Truthy(Some(Url)) by { assert Url[0] == 'h'; }
    assert LinkBody(Some(Keys2), Some(Url)) == Text.Terminated([l1, l2]);
    TerminatedTwo(l1, l2);
  }

  /** The first round at 09:00 sends exactly one notification, the daily
      summary holding both keys, and leaves the flag true. */
  lemma FirstMatchingRound()
    ensures var r := Round(NewTriggers(SampleConfig), false, false, At(9, 0, Keys2));
      r.sent == [Notification(DailyTitle, Body2, Some(Url), Some(true))] && r.state == Running(true)
  {
    var t := NewTriggers(SampleConfig);
    assert FormatHM(ClockTime(9, 0)) == "09:00";
    RoundRunsBothActions(t, false, false, At(9, 0, Keys2));
    SummaryBody();
  }

  /** A second round still at 09:00 starts from the true flag: nothing is
      sent and the flag stays true. */
  lemma SecondMatchingRound()
    ensures var r := Round(NewTriggers(SampleConfig), false, true, At(9, 0, Keys2));
      r.sent == [] && r.state == Running(true)
  {
    var t := NewTriggers(SampleConfig);
    assert FormatHM(ClockTime(9, 0)) == "09:00";
    RoundRunsBothActions(t, false, true, At(9, 0, Keys2));
  }

  /** Once the clock reads 09:01 the true flag is reset, and no daily summary
      is sent in that round. */
  lemma MinutePassed()
    ensures var r := Round(NewTriggers(SampleConfig), false, true, At(9, 1, Keys2));
      r.sent == [] && r.state == Running(false)
  {
    var t := NewTriggers(SampleConfig);
    assert FormatHM(ClockTime(9, 1))[4] == '1';
    RoundRunsBothActions(t, false, true, At(9, 1, Keys2));
  }

  /** Two rounds at 09:00 from the start of the loop: one summary in all. */
  lemma TwoMatchingRounds()
    ensures var o := RunRounds(NewTriggers(SampleConfig), false, false, [At(9, 0, Keys2), At(9, 0, Keys2)]);
      o.sent == [Notification(DailyTitle, Body2, Some(Url), Some(true))] && o.state == Running(true)
  {
    var t := NewTriggers(SampleConfig);
    var rounds := [At(9, 0, Keys2), At(9, 0, Keys2)];
    FirstMatchingRound();
    SecondMatchingRound();
    RunRoundsStep(t, false, false, rounds);
    assert rounds[1..] == [At(9, 0, Keys2)];
    RunRoundsStep(t, false, true, rounds[1..]);
    assert rounds[1..][1..] == [];
  }

  /** From the loop's initial flag, a single round at 09:00 sends the daily
      summary. */
  lemma SummarySentFromInitialFlag()
    ensures CountTitled(RunRounds(NewTriggers(SampleConfig), false, false, [At(9, 0, Keys2)]).sent, DailyTitle) == 1
  {
    var t := NewTriggers(SampleConfig);
    assert FormatHM(ClockTime(9, 0)) == "09:00";
    RoundDailyCount(t, false, false, At(9, 0, Keys2));
    RunRoundsStep(t, false, false, [At(9, 0, Keys2)]);
    assert [At(9, 0, Keys2)][1..] == [];
    CountConcat(Round(t, false, false, At(9, 0, Keys2)).sent, [], DailyTitle);
  }

  /** A round at 08:59 from the false flag sends no summary and leaves the
      flag true. */
  lemma RoundBeforeTime()
    ensures var r := Round(NewTriggers(SampleConfig), false, false, At(8, 59, Keys2));
      CountTitled(r.sent, DailyTitle) == 0 && r.state == Running(true)
  {
    var t := NewTriggers(SampleConfig);
    assert FormatHM(ClockTime(8, 59))[1] == '8';
    RoundDailyCount(t, false, false, At(8, 59, Keys2));
    RoundRunsBothActions(t, false, false, At(8, 59, Keys2));
    RoundFlagUpdate(t, false, false, At(8, 59, Keys2));
  }

  /** The flag as written skips a day: one round at 08:59 turns the false
      flag true, so the only check at 09:00 sends no summary although today's
      search finds tickets (compare SummarySentFromInitialFlag). */
  lemma SummarySkippedAfterOneEarlierRound()
    ensures CountTitled(RunRounds(NewTriggers(SampleConfig), false, false, [At(8, 59, Keys2), At(9, 0, Keys2)]).sent, DailyTitle) == 0
  {
    var t := NewTriggers(SampleConfig);
    var rounds := [At(8, 59, Keys2), At(9, 0, Keys2)];
    var r0 := Round(t, false, false, rounds[0]);
    RoundBeforeTime();
    var r1 := Round(t, false, true, rounds[1]);
    RoundDailyCount(t, false, true, rounds[1]);
    var tail := RunRounds(t, false, true, rounds[1..]);
    assert tail.sent == r1.sent by {
      RunRoundsStep(t, false, true, rounds[1..]);
      assert rounds[1..][1..] == [];
    }
    RunRoundsStep(t, false, false, rounds);
    CountConcat(r0.sent, tail.sent, DailyTitle);
  }
}
