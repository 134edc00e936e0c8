/** The `timer` decorator and `parser` of AEFM/utils/timer.py. The clock is a
    parameter (`now`, whole seconds) and the logged line is returned instead of
    written. */
module Timer {
  import opened Wrappers
  import opened Strings

  /** Hours, minutes and seconds of `parser`. Python's `//` and `%` floor; for a
      positive divisor Dafny's `/` and `%` agree with them. */
  function Clock(seconds: int): (hms: (int, int, int))
  {
    (seconds / 3600, (seconds % 3600) / 60, seconds % 3600 % 60)
  }

  /** The clock reading is exact: minutes and seconds are below 60, and together
      with the hours they add back up to `seconds`, negative or not. */
  lemma ClockExact(seconds: int)
    ensures var (hh, mm, ss) := Clock(seconds);
      Seconds(hh, mm, ss) == seconds && 0 <= mm < 60 && 0 <= ss < 60
    ensures seconds >= 0 ==> Clock(seconds).0 >= 0
  {
    var rest := seconds % 3600;
    assert seconds == 3600 * (seconds / 3600) + rest;
    assert rest == 60 * (rest / 60) + rest % 60;
    assert rest % 60 == seconds % 3600 % 60;
  }

  /** `parser(seconds)`: `hh:mm:ss`, each part zero-padded to two characters. For a
      non-negative duration the text reads back to the same number of seconds. */
  function Parser(seconds: int): (text: string)
    ensures seconds >= 0 ==> ClockSeconds(text) == Some(seconds)
  {
    var (hh, mm, ss) := Clock(seconds);
    if seconds < 0 then Pad2(hh) + ":" + Pad2(mm) + ":" + Pad2(ss)
    else
      ClockExact(seconds);
      Pad2Digits(hh);
      Pad2Digits(mm);
      Pad2Digits(ss);
      ClockText(Pad2(hh), Pad2(mm), Pad2(ss));
      Pad2(hh) + ":" + Pad2(mm) + ":" + Pad2(ss)
  }

  /** Reads an `hh:mm:ss` text back into seconds. */
  function ClockSeconds(text: string): Option<int>
  {
    var parts := Split(text, ':');
    if |parts| != 3 then None
    else Some(Seconds(ParseNat(parts[0]), ParseNat(parts[1]), ParseNat(parts[2])))
  }

  function Seconds(hh: int, mm: int, ss: int): int
  {
    3600 * hh + 60 * mm + ss
  }

  /** A padded part holds only digits and reads back as its value. */
  lemma Pad2Digits(x: int)
    requires x >= 0
    ensures IsDigits(Pad2(x)) && ParseNat(Pad2(x)) == x && |Pad2(x)| >= 2
  {
    ParseNatToString(x);
    if x < 10 {
      ParseNatLeadingZero(NatToString(x));
      assert IsDigits("0" + NatToString(x)) by {
        var s := "0" + NatToString(x);
        forall i | 0 <= i < |s| ensures '0' <= s[i] <= '9' {
          if i > 0 {
            assert s[i] == NatToString(x)[i - 1];
          }
        }
      }
    }
  }

  lemma DigitsHaveNoColon(s: string)
    requires IsDigits(s)
    ensures ':' !in s
  {
    forall i | 0 <= i < |s| ensures s[i] != ':' { }
  }

  /** Three runs of digits joined by colons read back as their values. */
  lemma ClockText(a: string, b: string, c: string)
    requires IsDigits(a) && IsDigits(b) && IsDigits(c)
    ensures ClockSeconds(a + ":" + b + ":" + c) == Some(Seconds(ParseNat(a), ParseNat(b), ParseNat(c)))
  {
    DigitsHaveNoColon(a);
    DigitsHaveNoColon(b);
    DigitsHaveNoColon(c);
    assert a + ":" + b + ":" + c == a + [':'] + (b + [':'] + c);
    SplitAround(a, b + [':'] + c, ':');
    SplitAround(b, c, ':');
    SplitNoSeparator(a, ':');
    SplitNoSeparator(b, ':');
    SplitNoSeparator(c, ':');
    assert Split(a + ":" + b + ":" + c, ':') == [a, b, c];
  }

  /** A `timer_dict` entry. `totalCount` is present only when a non-zero
      `total_count` was given when the entry was created. */
  datatype Entry = Entry(start: int, count: int, current: int, totalCount: Option<int>)

  /** The figures of one timing line. */
  datatype Report = Report(total: int, average: int, estimate: Option<int>)

  /** The report of an entry after its `count` was incremented. */
  function ReportOf(e: Entry): (r: Report)
    requires e.count > 0
    ensures r.total == e.current - e.start
    ensures r.average * e.count <= r.total < (r.average + 1) * e.count
    ensures r.estimate.Some? <==> e.totalCount.Some?
    ensures r.estimate.Some? ==> r.estimate.value == (e.totalCount.value - e.count) * r.average
  {
    var total := e.current - e.start;
    var average := total / e.count;
    Report(total, average, if e.totalCount.Some? then Some((e.totalCount.value - e.count) * average) else None)
  }

  /** The logged line: every part ends in `"; "`, and the last two characters are
      cut off. */
  function Line(name: string, r: Report): string
  {
    var info := "Time cost by \"" + name + "\" - "
      + "Total: " + Parser(r.total) + "; "
      + "Average: " + Parser(r.average) + "; "
      + (if r.estimate.Some? then "Estimated left: " + Parser(r.estimate.value) + "; " else "");
    info[..|info| - 2]
  }

  /** Counts start at 0 and only grow. */
  predicate WellFormed(entries: map<string, Entry>)
  {
    forall n :: n in entries ==> entries[n].count >= 0
  }

  /** The registry after one call of a wrapped function named `name` at time
      `now`, and the report it logs (None on the first call). */
  function Step(entries: map<string, Entry>, name: string, totalCount: int, now: int): (r: (map<string, Entry>, Option<Report>))
    requires WellFormed(entries)
    ensures WellFormed(r.0)
    ensures name in r.0 && r.0.Keys == entries.Keys + {name}
    ensures forall other :: other in entries && other != name ==> r.0[other] == entries[other]
    ensures name !in entries ==> (r.1.None? && r.0[name].count == 0 && r.0[name].start == now
      && r.0[name].current == now && (r.0[name].totalCount.Some? <==> totalCount != 0)
      && (r.0[name].totalCount.Some? ==> r.0[name].totalCount.value == totalCount))
    ensures name in entries ==> (r.0[name].count == entries[name].count + 1 && r.0[name].current == now
      && r.0[name].start == entries[name].start && r.0[name].totalCount == entries[name].totalCount)
    ensures name in entries ==> r.1 == Some(ReportOf(r.0[name]))
  {
    if name !in entries then
      (entries[name := Entry(now, 0, now, if totalCount != 0 then Some(totalCount) else None)], None)
    else
      var e := entries[name].(current := now, count := entries[name].count + 1);
      (entries[name := e], Some(ReportOf(e)))
  }

  /** A call of one wrapped function: its name, the `total_count` of its
      decorator, and the clock at the call. */
  datatype Call = Call(name: string, totalCount: int, now: int)

  /** The registry after a sequence of calls. */
  function Run(entries: map<string, Entry>, calls: seq<Call>): (r: map<string, Entry>)
    requires WellFormed(entries)
    ensures WellFormed(r)
  {
    if |calls| == 0 then entries
    else
      var c := calls[|calls| - 1];
      Step(Run(entries, calls[..|calls| - 1]), c.name, c.totalCount, c.now).0
  }

  /** The number of calls made under `name`. */
  function Calls(calls: seq<Call>, name: string): nat
  {
    if |calls| == 0 then 0
    else Calls(calls[..|calls| - 1], name) + (if calls[|calls| - 1].name == name then 1 else 0)
  }

  /** From an empty registry, a name has an entry exactly when it was called, and
      its count is the number of calls after the first; the count never goes
      negative, so every later call reports. */
  lemma {:induction false} CountsCalls(calls: seq<Call>, name: string)
    ensures name in Run(map[], calls) <==> Calls(calls, name) > 0
    ensures name in Run(map[], calls) ==> Run(map[], calls)[name].count == Calls(calls, name) - 1
  {
    if |calls| > 0 {
      CountsCalls(calls[..|calls| - 1], name);
    }
  }

  /** The registry of AEFM/utils/timer.py's global `timer_dict`. */
  class Timers {
    var entries: map<string, Entry>

    ghost predicate Valid()
      reads this
    {
      WellFormed(entries)
    }

    constructor()
      ensures entries == map[] && Valid()
    {
      entries := map[];
    }

    /** The wrapper around a call of `func` under `name`: creates the entry on the
        first call, otherwise advances it and logs the timing line. `func`'s
        result is returned unchanged. */
    method Wrapper<R>(name: string, totalCount: int, now: int, func: () -> R) returns (result: R, logged: Option<string>)
      requires Valid()
      modifies this
      ensures Valid()
      ensures entries == Step(old(entries), name, totalCount, now).0
      ensures logged.Some? <==> name in old(entries)
      ensures logged.Some? ==> logged.value == Line(name, Step(old(entries), name, totalCount, now).1.value)
      ensures result == func()
    {
      if name !in entries {
        entries := entries[name := Entry(now, 0, now, if totalCount != 0 then Some(totalCount) else None)];
        return func(), None;
      }
      var e := entries[name];
      e := e.(current := now);
      e := e.(count := e.count + 1);
      entries := entries[name := e];
      var report := ReportOf(e);
      logged := Some(Line(name, report));
      result := func();
    }
  }
}
