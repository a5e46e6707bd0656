/**
 * The popup's time arithmetic: `subtractTimes` with its inner `timeToSeconds` and
 * `formatTime`, and the comment that `getFunnyWorkHourComment` picks.
 * Times are `HH:MM:SS` strings; their meaning is a number of seconds.
 */
module WorkTime {
  import opened Text

  /**
   * The strings `timeToSeconds` is modelled on: exactly three non-empty runs of decimal
   * digits separated by `:`. Segments are not limited to two digits or to values below 60.
   */
  predicate WellFormedTime(t: string) {
    var parts := Split(t, ':');
    |parts| == 3 && IsDigits(parts[0]) && IsDigits(parts[1]) && IsDigits(parts[2])
  }

  /** `timeToSeconds`: hours * 3600 + minutes * 60 + seconds of the three segments. */
  function TimeToSeconds(time: string): nat
    requires WellFormedTime(time)
  {
    var parts := Split(time, ':');
    ParseNat(parts[0]) * 3600 + ParseNat(parts[1]) * 60 + ParseNat(parts[2])
  }

  /** `padStart(2, "0")`: a string shorter than two gets `0`s in front up to length two. */
  function PadStart2(s: string): string {
    if |s| >= 2 then s else if |s| == 1 then "0" + s else "00"
  }

  /** One field of `formatTime`: `String(unit).padStart(2, "0")`. */
  function Field(unit: nat): string {
    PadStart2(NatToString(unit))
  }

  /** `formatTime`: whole hours, then minutes and seconds of the remainder, joined by `:`. */
  function FormatTime(totalSeconds: nat): string {
    Join([Field(totalSeconds / 3600), Field(totalSeconds % 3600 / 60), Field(totalSeconds % 60)], ':')
  }

  /**
   * `subtractTimes`: the difference of the two times in seconds, a negative difference
   * clamped to zero, formatted back. The result is well formed and denotes exactly
   * max(0, seconds(time1) - seconds(time2)).
   */
  function SubtractTimes(time1: string, time2: string): (r: string)
    requires WellFormedTime(time1) && WellFormedTime(time2)
    ensures WellFormedTime(r)
    ensures TimeToSeconds(r) ==
      if TimeToSeconds(time1) >= TimeToSeconds(time2) then TimeToSeconds(time1) - TimeToSeconds(time2) else 0
    ensures TimeToSeconds(r) <= TimeToSeconds(time1)
  {
    var diffInSeconds := TimeToSeconds(time1) - TimeToSeconds(time2);
    var clamped: nat := if diffInSeconds < 0 then 0 else diffInSeconds;
    FormatTimeRoundTrip(clamped);
    FormatTime(clamped)
  }

  // ---------------------------------------------------------------------------
  // Properties of the fields and of the round trip

  lemma ParsePadStart2(s: string)
    requires AllDigits(s)
    ensures AllDigits(PadStart2(s)) && ParseNat(PadStart2(s)) == ParseNat(s)
    ensures |PadStart2(s)| >= 2 && (|s| >= 2 ==> PadStart2(s) == s)
  {
    if |s| == 1 {
      ParseLeadingZero(s);
    } else if |s| == 0 {
      ParseLeadingZero("0");
      assert "0" + "0" == "00";
    }
  }

  /** A field is a run of at least two digits that denotes the unit it was made from. */
  lemma FieldValue(unit: nat)
    ensures IsDigits(Field(unit)) && |Field(unit)| >= 2 && ':' !in Field(unit)
    ensures ParseNat(Field(unit)) == unit
  {
    ParsePadStart2(NatToString(unit));
    ParseNatToString(unit);
  }

  /** A time made of three separator-free digit runs splits back into them. */
  lemma JoinThree(a: string, b: string, c: string)
    requires IsDigits(a) && IsDigits(b) && IsDigits(c)
    ensures Split(Join([a, b, c], ':'), ':') == [a, b, c]
    ensures WellFormedTime(Join([a, b, c], ':'))
    ensures TimeToSeconds(Join([a, b, c], ':')) == ParseNat(a) * 3600 + ParseNat(b) * 60 + ParseNat(c)
  {
    assert forall k :: 0 <= k < 3 ==> ':' !in [a, b, c][k];
    SplitJoin([a, b, c], ':');
  }

  /** Division of h * 3600 + m * 60 + s recovers the three units when m and s are below 60. */
  lemma UnitsOf(h: nat, m: nat, s: nat)
    requires m < 60 && s < 60
    ensures (h * 3600 + m * 60 + s) / 3600 == h
    ensures (h * 3600 + m * 60 + s) % 3600 / 60 == m
    ensures (h * 3600 + m * 60 + s) % 60 == s
  {
    var n := h * 3600 + m * 60 + s;
    assert n == h * 3600 + (m * 60 + s) && m * 60 + s < 3600;
    assert n % 3600 == m * 60 + s;
    assert n == (h * 60 + m) * 60 + s;
  }

  /**
   * What `formatTime` emits: three `:`-separated fields of at least two digits each; the first
   * is the number of whole hours (unbounded), the other two are minutes and seconds in [0, 59].
   */
  lemma FormatTimeFields(n: nat)
    ensures WellFormedTime(FormatTime(n))
    ensures var p := Split(FormatTime(n), ':');
      |p[0]| >= 2 && |p[1]| >= 2 && |p[2]| >= 2 &&
      ParseNat(p[0]) == n / 3600 && ParseNat(p[1]) < 60 && ParseNat(p[2]) < 60 &&
      n == ParseNat(p[0]) * 3600 + ParseNat(p[1]) * 60 + ParseNat(p[2])
  {
    var h, m, s := n / 3600, n % 3600 / 60, n % 60;
    FieldValue(h);
    FieldValue(m);
    FieldValue(s);
    JoinThree(Field(h), Field(m), Field(s));
    RecomposeUnits(n);
  }

  /** Whole hours, minutes and seconds of n recompose n, and minutes and seconds are below 60. */
  lemma RecomposeUnits(n: nat)
    ensures n % 3600 / 60 < 60 && n % 60 < 60
    ensures n == n / 3600 * 3600 + n % 3600 / 60 * 60 + n % 60
  {
    var q, r := n / 3600, n % 3600;
    assert n == q * 3600 + r;
    assert r == r / 60 * 60 + r % 60;
    assert n == (q * 60 + r / 60) * 60 + r % 60;
    assert n % 60 == r % 60;
  }

  /** Round trip: for every n >= 0, timeToSeconds(formatTime(n)) == n. */
  lemma FormatTimeRoundTrip(n: nat)
    ensures WellFormedTime(FormatTime(n)) && TimeToSeconds(FormatTime(n)) == n
  {
    FormatTimeFields(n);
  }

  /**
   * The canonical spellings: minutes and seconds below 60, and every field written exactly as
   * `formatTime` writes its value (two digits at least, no further leading zeros).
   */
  predicate Canonical(t: string) {
    WellFormedTime(t) &&
    var p := Split(t, ':');
    ParseNat(p[1]) < 60 && ParseNat(p[2]) < 60 &&
    p[0] == Field(ParseNat(p[0])) && p[1] == Field(ParseNat(p[1])) && p[2] == Field(ParseNat(p[2]))
  }

  /** A well-formed time is canonical exactly when formatting its value gives it back. */
  lemma CanonicalIff(t: string)
    requires WellFormedTime(t)
    ensures Canonical(t) <==> FormatTime(TimeToSeconds(t)) == t
  {
    var n := TimeToSeconds(t);
    if Canonical(t) {
      var p := Split(t, ':');
      var h, m, s := ParseNat(p[0]), ParseNat(p[1]), ParseNat(p[2]);
      UnitsOf(h, m, s);
      JoinSplit(t, ':');
      assert p == [p[0], p[1], p[2]];
    }
    if FormatTime(n) == t {
      FormatTimeIsCanonical(n);
    }
  }

  /** Every string `formatTime` produces is canonical. */
  lemma FormatTimeIsCanonical(n: nat)
    ensures Canonical(FormatTime(n))
  {
    var h, m, s := n / 3600, n % 3600 / 60, n % 60;
    FieldValue(h);
    FieldValue(m);
    FieldValue(s);
    JoinThree(Field(h), Field(m), Field(s));
  }

  /** Subtracting a zero break leaves a canonical time unchanged. */
  lemma SubtractZeroBreak(t: string)
    requires Canonical(t)
    ensures WellFormedTime("00:00:00")
    ensures SubtractTimes(t, "00:00:00") == t
  {
    ZeroTime();
    CanonicalIff(t);
  }

  /** "00:00:00" is well formed and denotes zero seconds. */
  lemma ZeroTime()
    ensures WellFormedTime("00:00:00") && TimeToSeconds("00:00:00") == 0
  {
    assert Join(["00", "00", "00"], ':') == "00:00:00";
    JoinThree("00", "00", "00");
  }

  /** `subtractTimes` is `formatTime` of the clamped difference. */
  lemma SubtractFormats(time1: string, time2: string)
    requires WellFormedTime(time1) && WellFormedTime(time2)
    ensures SubtractTimes(time1, time2) ==
      FormatTime(if TimeToSeconds(time1) >= TimeToSeconds(time2) then TimeToSeconds(time1) - TimeToSeconds(time2) else 0)
  {
  }

  /** A break longer than the worked time gives "00:00:00", never a negative time. */
  lemma LongBreakClampsToZero(time1: string, time2: string)
    requires WellFormedTime(time1) && WellFormedTime(time2)
    requires TimeToSeconds(time1) <= TimeToSeconds(time2)
    ensures SubtractTimes(time1, time2) == "00:00:00"
  {
    SubtractFormats(time1, time2);
    FormatsZero();
  }

  /** The string `formatTime` writes for h hours, m minutes and s seconds. */
  lemma FormatUnits(h: nat, m: nat, s: nat)
    requires m < 60 && s < 60
    ensures FormatTime(h * 3600 + m * 60 + s) == Join([Field(h), Field(m), Field(s)], ':')
  {
    UnitsOf(h, m, s);
  }

  /** The fields the examples need, as `formatTime` pads them. */
  lemma FieldsOfExamples()
    ensures Field(0) == "00" && Field(1) == "01" && Field(8) == "08" && Field(9) == "09"
    ensures Field(30) == "30"
  {
    assert NatToString(3) == "3";
    assert NatToString(30) == NatToString(3) + "0";
  }

  /** Three parts joined by `:` are the parts with a `:` between neighbours. */
  lemma JoinOfThree(a: string, b: string, c: string)
    ensures Join([a, b, c], ':') == a + [':'] + b + [':'] + c
  {
    assert [a, b, c][1..] == [b, c];
    assert [b, c][1..] == [c];
    assert Join([b, c], ':') == b + [':'] + c;
    assert a + [':'] + (b + [':'] + c) == a + [':'] + b + [':'] + c;
  }

  /** formatTime(0) == "00:00:00". */
  lemma FormatsZero()
    ensures FormatTime(0) == "00:00:00"
  {
    FormatUnits(0, 0, 0);
    FieldsOfExamples();
    JoinOfThree("00", "00", "00");
  }

  /** formatTime(5400) == "01:30:00". */
  lemma Formats5400()
    ensures FormatTime(5400) == "01:30:00"
  {
    FormatUnits(1, 30, 0);
    FieldsOfExamples();
    JoinOfThree("01", "30", "00");
  }

  /** formatTime(30600) == "08:30:00". */
  lemma Formats30600()
    ensures FormatTime(30600) == "08:30:00"
  {
    FormatUnits(8, 30, 0);
    FieldsOfExamples();
    JoinOfThree("08", "30", "00");
  }

  /** formatTime(32400) == "09:00:00". */
  lemma Formats32400()
    ensures FormatTime(32400) == "09:00:00"
  {
    FormatUnits(9, 0, 0);
    FieldsOfExamples();
    JoinOfThree("09", "00", "00");
  }

  /** "00:90:00" is well formed and denotes 5400 seconds. */
  lemma SecondsOf009000()
    ensures WellFormedTime("00:90:00") && TimeToSeconds("00:90:00") == 5400
  {
    assert "00:90:00" == Join(["00", "90", "00"], ':');
    JoinThree("00", "90", "00");
    assert ParseNat("00") == 0 && ParseNat("90") == 90 by {
      assert "00"[..1] == "0" && "90"[..1] == "9";
    }
  }

  /** "09:00:00" is well formed and denotes 32400 seconds. */
  lemma SecondsOf090000()
    ensures WellFormedTime("09:00:00") && TimeToSeconds("09:00:00") == 32400
  {
    assert "09:00:00" == Join(["09", "00", "00"], ':');
    JoinThree("09", "00", "00");
    assert ParseNat("00") == 0 && ParseNat("09") == 9 by {
      assert "00"[..1] == "0" && "09"[..1] == "0";
    }
  }

  /** "00:30:00" is well formed and denotes 1800 seconds. */
  lemma SecondsOf003000()
    ensures WellFormedTime("00:30:00") && TimeToSeconds("00:30:00") == 1800
  {
    assert "00:30:00" == Join(["00", "30", "00"], ':');
    JoinThree("00", "30", "00");
    assert ParseNat("00") == 0 && ParseNat("30") == 30 by {
      assert "00"[..1] == "0" && "30"[..1] == "3";
    }
  }

  /** "10:00:00" is well formed and denotes 36000 seconds. */
  lemma SecondsOf100000()
    ensures WellFormedTime("10:00:00") && TimeToSeconds("10:00:00") == 36000
  {
    assert "10:00:00" == Join(["10", "00", "00"], ':');
    JoinThree("10", "00", "00");
    assert ParseNat("00") == 0 && ParseNat("10") == 10 by {
      assert "00"[..1] == "0" && "10"[..1] == "1";
    }
  }

  /** "01:00:00" is well formed and denotes 3600 seconds. */
  lemma SecondsOf010000()
    ensures WellFormedTime("01:00:00") && TimeToSeconds("01:00:00") == 3600
  {
    assert "01:00:00" == Join(["01", "00", "00"], ':');
    JoinThree("01", "00", "00");
    assert ParseNat("00") == 0 && ParseNat("01") == 1 by {
      assert "00"[..1] == "0" && "01"[..1] == "0";
    }
  }

  /** A non-canonical time is normalised: "00:90:00" becomes "01:30:00". */
  lemma NormalisesMinutes()
    ensures WellFormedTime("00:90:00") && WellFormedTime("00:00:00")
    ensures SubtractTimes("00:90:00", "00:00:00") == "01:30:00"
  {
    ZeroTime();
    SecondsOf009000();
    SubtractFormats("00:90:00", "00:00:00");
    Formats5400();
  }

  /** subtractTimes("09:00:00", "00:30:00") == "08:30:00". */
  lemma ExampleHalfHourBreak()
    ensures WellFormedTime("09:00:00") && WellFormedTime("00:30:00")
    ensures SubtractTimes("09:00:00", "00:30:00") == "08:30:00"
  {
    SecondsOf090000();
    SecondsOf003000();
    SubtractFormats("09:00:00", "00:30:00");
    Formats30600();
  }

  /** subtractTimes("10:00:00", "01:00:00") == "09:00:00". */
  lemma ExampleOneHourBreak()
    ensures WellFormedTime("10:00:00") && WellFormedTime("01:00:00")
    ensures SubtractTimes("10:00:00", "01:00:00") == "09:00:00"
  {
    SecondsOf100000();
    SecondsOf010000();
    SubtractFormats("10:00:00", "01:00:00");
    Formats32400();
  }

  // ---------------------------------------------------------------------------
  // getFunnyWorkHourComment

  /** The fixed pool the comment is drawn from (34 entries, some repeated). */
  const FunnyComments: seq<string> := [
    "Whoa! You working overtime or saving the world? 🦸‍♂️",
    "You deserve a raise… or at least a coffee! ☕",
    "Are you sure you're not stuck in a time loop? ⏳😂",
    "Somebody give this person a vacation! 🏖️",
    "Workaholic mode: ACTIVATED! 🚀",
    "Does your chair have a glue trap? Time to escape! 😆",
    "You're making the rest of us look bad! Slow down! 😜",
    "Enough work for today! Your keyboard needs a break too! ⌨️💨",
    "Boss Level Unlocked: Ultimate Workaholic! 🏆",
    "Whoa! You working overtime or saving the world? 🦸‍♂️",
    "You deserve a raise… or at least a coffee! ☕",
    "Are you sure you're not stuck in a time loop? ⏳😂",
    "Somebody give this person a vacation! 🏖️",
    "Workaholic mode: ACTIVATED! 🚀",
    "Does your chair have a glue trap? Time to escape! 😆",
    "You're making the rest of us look bad! Slow down! 😜",
    "Enough work for today! Your keyboard needs a break too! ⌨️💨",
    "Boss Level Unlocked: Ultimate Workaholic! 🏆",
    "Code, sleep, repeat? More like work, work, work! 😅",
    "At this rate, you’ll own the company soon! 🏢😂",
    "Hey, even robots take breaks! 🤖💤",
    "Your keyboard is overheating! 🚨🔥",
    "Workaholic alert! Someone needs to unplug you! 🛑😂",
    "Are you farming XP in real life? 🎮🤣",
    "I see you’re training for the Work Marathon! 🏃‍♂️💨",
    "Go home! Your desk misses you, but your bed misses you more! 🛏️💤",
    "If work were a sport, you'd be MVP! 🏅😂",
    "You’re setting a new office record! 🏆👏",
    "Your manager just fainted seeing your hours! 😂",
    "Time to file a missing person report… for your social life! 📢",
    "Careful! HR might start charging you rent for that chair! 😆",
    "I hope your company gives loyalty points for this! 💰",
    "Work-life balance? Never heard of it! 😂",
    "Someone get this person an **extra** lunch break! 🍔🍟"
  ]

  /**
   * The decision at the end of `getFunnyWorkHourComment`, on the two second counts it compares.
   * `pick` stands for `Math.floor(Math.random() * funnyComments.length)`, which is always an
   * index of the pool. The comment is non-empty exactly when `workSeconds < maxSeconds`, and
   * then it is the picked entry of the pool.
   */
  function CommentFor(workSeconds: nat, maxSeconds: nat, pick: nat): (r: string)
    requires pick < |FunnyComments|
    ensures r != "" <==> workSeconds < maxSeconds
    ensures r != "" ==> r == FunnyComments[pick] && r in FunnyComments
  {
    if workSeconds < maxSeconds then FunnyComments[pick] else ""
  }

  /**
   * `getFunnyWorkHourComment` over the two result slots: the worked seconds compared with the
   * seconds of `subtractTimes(workHours, breakHours)`.
   */
  function FunnyWorkHourComment(workHours: string, breakHours: string, pick: nat): (r: string)
    requires WellFormedTime(workHours) && WellFormedTime(breakHours)
    requires pick < |FunnyComments|
    ensures r != "" <==> TimeToSeconds(workHours) < TimeToSeconds(SubtractTimes(workHours, breakHours))
    ensures r != "" ==> r == FunnyComments[pick]
  {
    var maxWorkHours := SubtractTimes(workHours, breakHours);
    CommentFor(TimeToSeconds(workHours), TimeToSeconds(maxWorkHours), pick)
  }

  /**
   * The net time never exceeds the worked time, so for well-formed slots the comparison never
   * holds and the comment is always empty.
   */
  lemma CommentNeverShown(workHours: string, breakHours: string, pick: nat)
    requires WellFormedTime(workHours) && WellFormedTime(breakHours)
    requires pick < |FunnyComments|
    ensures FunnyWorkHourComment(workHours, breakHours, pick) == ""
  {
    var net := SubtractTimes(workHours, breakHours);
    assert TimeToSeconds(net) <= TimeToSeconds(workHours);
  }
}
