/** The configuration the notifier runs with, its loading, and the
    minute-granularity clock comparison that gates the daily summary. */
module Helper {
  import opened Wrappers

  /** The settings read from the YAML file; `None` is a key the file does not
      have. Every component reads them with `dict.get`. */
  datatype Config = Config(
    projectNames: Option<seq<string>>,
    users: Option<seq<string>>,
    jiraApiUrl: Option<string>,
    jiraApiToken: Option<string>,
    dailyToastTime: Option<string>,
    ticketsFromLastMin: Option<int>,
    toastTimeSeconds: Option<int>,
    toastSound: Option<bool>)

  /** The configuration `{}`: no key at all. */
  const EmptyConfig := Config(None, None, None, None, None, None, None, None)

  /** What opening and parsing the configuration file gives. */
  datatype ConfigFile = FileNotFound | Parsed(config: Config)

  /** `load_config`: a missing file is reported and gives the empty configuration. */
  function LoadConfig(file: ConfigFile): Config
  {
    match file
    case FileNotFound => EmptyConfig
    case Parsed(config) => config
  }

  type Hour = h: nat | h < 24
  type Minute = m: nat | m < 60

  /** The local wall clock at minute granularity. */
  datatype ClockTime = ClockTime(hour: Hour, minute: Minute)

  function Digit(d: nat): char
    requires d < 10
  {
    (48 + d) as char
  }

  predicate IsDigit(c: char)
  {
    '0' <= c <= '9'
  }

  function DigitValue(c: char): nat
    requires IsDigit(c)
  {
    c as int - 48
  }

  /** Zero-padded two-digit rendering, as `%H` and `%M` print. */
  function TwoDigits(n: nat): string
    requires n < 100
  {
    [Digit(n / 10), Digit(n % 10)]
  }

  /** `now.strftime("%H:%M")`. */
  function FormatHM(t: ClockTime): string
  {
    TwoDigits(t.hour) + ":" + TwoDigits(t.minute)
  }

  /** A string `strftime("%H:%M")` can produce: two digits, a colon, two
      digits, naming an hour below 24 and a minute below 60. */
  predicate WellFormedHM(s: string)
  {
    |s| == 5 && IsDigit(s[0]) && IsDigit(s[1]) && s[2] == ':' && IsDigit(s[3]) && IsDigit(s[4])
    && DigitValue(s[0]) * 10 + DigitValue(s[1]) < 24
    && DigitValue(s[3]) * 10 + DigitValue(s[4]) < 60
  }

  /** Reads a well-formed `HH:MM` back as a clock time. */
  function ParseHM(s: string): ClockTime
    requires WellFormedHM(s)
  {
    ClockTime(DigitValue(s[0]) * 10 + DigitValue(s[1]), DigitValue(s[3]) * 10 + DigitValue(s[4]))
  }

  /** `is_time_equal_to_input`: the configured value equals the current time
      rendered as `%H:%M`. An absent value is `None`, which equals no string. */
  function IsTimeEqualToInput(dailyToastTime: Option<string>, now: ClockTime): bool
  {
    dailyToastTime == Some(FormatHM(now))
  }

  /** Rendering a clock time gives a well-formed `HH:MM` that reads back as
      the same time. */
  lemma ParseFormat(t: ClockTime)
    ensures WellFormedHM(FormatHM(t)) && ParseHM(FormatHM(t)) == t
  {
    var s := FormatHM(t);
    assert s[0] == Digit(t.hour / 10) && s[1] == Digit(t.hour % 10);
    assert s[3] == Digit(t.minute / 10) && s[4] == Digit(t.minute % 10);
  }

  /** Reading a well-formed `HH:MM` and rendering it again gives the same text. */
  lemma FormatParse(s: string)
    requires WellFormedHM(s)
    ensures FormatHM(ParseHM(s)) == s
  {
    var t := ParseHM(s);
    var h1, h0, m1, m0 := DigitValue(s[0]), DigitValue(s[1]), DigitValue(s[3]), DigitValue(s[4]);
    assert (h1 * 10 + h0) / 10 == h1 && (h1 * 10 + h0) % 10 == h0;
    assert (m1 * 10 + m0) / 10 == m1 && (m1 * 10 + m0) % 10 == m0;
    assert FormatHM(t) == [s[0], s[1], ':', s[3], s[4]];
  }

  /** The clock check holds exactly when a time is configured, it is a
      well-formed `HH:MM`, and it names the current hour and minute. */
  lemma TimeEqualIffNamesNow(configured: Option<string>, now: ClockTime)
    ensures IsTimeEqualToInput(configured, now)
        <==> configured.Some? && WellFormedHM(configured.value) && ParseHM(configured.value) == now
  {
    ParseFormat(now);
    if configured.Some? && WellFormedHM(configured.value) && ParseHM(configured.value) == now {
      FormatParse(configured.value);
    }
  }

  /** A configured time that is not a zero-padded `HH:MM` (such as `"9:00"`
      or `"24:00"`) never matches, which switches the daily summary off. */
  lemma MalformedNeverMatches(configured: string, now: ClockTime)
    requires !WellFormedHM(configured)
    ensures !IsTimeEqualToInput(Some(configured), now)
  {
    ParseFormat(now);
  }
}
