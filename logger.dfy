/**
 * The buffered file logger of src/core/logger.ts. Each level has a logger writing to the file
 * `YYYYMMDD<postfix>.log` of the current UTC date; it syncs the file after a number of
 * unsynced writes or when a timer armed by the first unsynced write expires, rolls over to
 * a new file when a sync finds that the date has changed, and deletes files older than its
 * retention period. Dates are civil UTC dates numbered by days; the clock is a parameter,
 * the file handle is the name of the open file and the timer is a token.
 */
module LogFiles {
  import opened Wrappers
  import opened JsText

  /** A civil date of the proleptic Gregorian calendar. */
  datatype Date = Date(year: int, month: int, day: int)

  predicate LeapYear(y: int) {
    y % 4 == 0 && (y % 100 != 0 || y % 400 == 0)
  }

  function DaysInMonth(y: int, m: int): int
    requires 1 <= m <= 12
  {
    if m == 2 then (if LeapYear(y) then 29 else 28)
    else if m == 4 || m == 6 || m == 9 || m == 11 then 30
    else 31
  }

  /**
   * A date the clock can give: a real calendar day in a year written with four digits and
   * past the two-digit years that `Date.UTC` reads as 19xx.
   */
  predicate ValidDate(d: Date) {
    100 <= d.year <= 9999 && 1 <= d.month <= 12 && 1 <= d.day <= DaysInMonth(d.year, d.month)
  }

  /** Days from the first of January of year 1 to the first of January of `y`. */
  function DaysBeforeYear(y: int): int {
    365 * (y - 1) + (y - 1) / 4 - (y - 1) / 100 + (y - 1) / 400
  }

  /** Days from the first of January to the first day of month `m`. */
  function DaysBeforeMonth(y: int, m: int): int
    requires 1 <= m <= 12
  {
    [0, 31, 59, 90, 120, 151, 181, 212, 243, 273, 304, 334][m - 1] + (if m > 2 && LeapYear(y) then 1 else 0)
  }

  /** The day number of a date; day 0 is the first of January of year 1. */
  function DayNumber(d: Date): int
    requires 1 <= d.month <= 12
  {
    DaysBeforeYear(d.year) + DaysBeforeMonth(d.year, d.month) + d.day - 1
  }

  /** The calendar day after `d`. */
  function Next(d: Date): Date
    requires 1 <= d.month <= 12
  {
    if d.day < DaysInMonth(d.year, d.month) then Date(d.year, d.month, d.day + 1)
    else if d.month < 12 then Date(d.year, d.month + 1, 1)
    else Date(d.year + 1, 1, 1)
  }

  /** Going from `y - 1` to `y` adds one multiple of `k` exactly when `k` divides `y`. */
  lemma MultipleStep(y: int, k: int)
    requires k == 4 || k == 100 || k == 400
    ensures y / k - (y - 1) / k == if y % k == 0 then 1 else 0
  {
    if k == 4 {
    } else if k == 100 {
    } else {
    }
  }

  /** A year has 366 days exactly when it is a leap year. */
  lemma YearLength(y: int)
    ensures DaysBeforeYear(y + 1) - DaysBeforeYear(y) == if LeapYear(y) then 366 else 365
  {
    MultipleStep(y, 4);
    MultipleStep(y, 100);
    MultipleStep(y, 400);
  }

  /** Consecutive calendar days have consecutive day numbers. */
  lemma DayNumberNext(d: Date)
    requires ValidDate(d)
    ensures 1 <= Next(d).month <= 12 && 1 <= Next(d).day <= DaysInMonth(Next(d).year, Next(d).month)
    ensures DayNumber(Next(d)) == DayNumber(d) + 1
  {
    if d.day == DaysInMonth(d.year, d.month) && d.month == 12 {
      YearLength(d.year);
    }
  }

  /** `n` written with exactly `width` decimal digits, zero-padded (high digits beyond the width dropped). */
  function Decimal(n: nat, width: nat): (s: string)
    ensures |s| == width
    ensures forall k | 0 <= k < |s| :: IsRadixDigit(s[k], 10)
  {
    if width == 0 then [] else Decimal(n / 10, width - 1) + [DigitChar(n % 10)]
  }

  function Pow10(width: nat): nat {
    if width == 0 then 1 else 10 * Pow10(width - 1)
  }

  /** Reading back a number that fits in the width gives the number. */
  lemma {:induction false} DecimalValue(n: nat, width: nat)
    requires n < Pow10(width)
    ensures DigitsValue(Decimal(n, width), 10) == n
  {
    if width > 0 {
      DecimalValue(n / 10, width - 1);
      var s := Decimal(n, width);
      assert s[..|s| - 1] == Decimal(n / 10, width - 1);
    }
  }

  /** `time.format('YYYYMMDD')`. */
  function Stamp(d: Date): (s: string)
    requires ValidDate(d)
    ensures |s| == 8
  {
    Decimal(d.year, 4) + Decimal(d.month, 2) + Decimal(d.day, 2)
  }

  /** The file a logger with this postfix writes on date `d` (src/core/logger.ts:43-44). */
  function FileName(d: Date, postfix: string): (name: string)
    requires ValidDate(d)
    ensures |name| == 8 + |postfix| + 4
  {
    Stamp(d) + postfix + ".log"
  }

  /** `Date.UTC`'s reading of a year: 0 to 99 mean 1900 to 1999. */
  function UtcYear(y: int): int {
    if 0 <= y <= 99 then 1900 + y else y
  }

  /**
   * `Date.UTC(year, month0, day)` as a day number: a month outside 0..11 moves into the
   * neighbouring years and a day outside the month moves into the neighbouring months.
   */
  function MakeDay(year: int, month0: int, day: int): int {
    DayNumber(Date(UtcYear(year) + month0 / 12, month0 % 12 + 1, 1)) + day - 1
  }

  /** A month and day within range are read as that date. */
  lemma MakeDayOfDate(d: Date)
    requires ValidDate(d)
    ensures MakeDay(d.year, d.month - 1, d.day) == DayNumber(d)
  {
    assert (d.month - 1) / 12 == 0 && (d.month - 1) % 12 == d.month - 1;
  }

  /** Whether the first eight characters of a name are decimal digits. */
  predicate Stamped(name: string) {
    |name| >= 8 && forall k | 0 <= k < 8 :: IsRadixDigit(name[k], 10)
  }

  /**
   * The day `dayjs.utc(name.slice(0, 8), 'YYYYMMDD')` denotes for a name starting with eight
   * digits: year, month and day read as `Date.UTC` reads them; `None` for other names.
   */
  function StampDay(name: string): (r: Option<int>)
    ensures r.Some? <==> Stamped(name)
  {
    if Stamped(name) then
      var s := name[..8];
      Some(MakeDay(DigitsValue(s[..4], 10), DigitsValue(s[4..6], 10) - 1, DigitsValue(s[6..8], 10)))
    else None
  }

  /** The three fields of a stamp read back as the year, month and day. */
  lemma StampFields(d: Date)
    requires ValidDate(d)
    ensures var s := Stamp(d);
      && DigitsValue(s[..4], 10) == d.year
      && DigitsValue(s[4..6], 10) == d.month
      && DigitsValue(s[6..8], 10) == d.day
  {
    var s := Stamp(d);
    assert s[..4] == Decimal(d.year, 4);
    assert s[4..6] == Decimal(d.month, 2);
    assert s[6..8] == Decimal(d.day, 2);
    assert Pow10(4) == 10000 && Pow10(2) == 100;
    DecimalValue(d.year, 4);
    DecimalValue(d.month, 2);
    DecimalValue(d.day, 2);
  }

  /** A file name starts with the eight digits of its stamp. */
  lemma FileNameStamped(d: Date, postfix: string)
    requires ValidDate(d)
    ensures FileName(d, postfix)[..8] == Stamp(d) && Stamped(FileName(d, postfix))
  {
    var name := FileName(d, postfix);
    assert name[..8] == Stamp(d);
    forall k | 0 <= k < 8 ensures IsRadixDigit(name[k], 10) {
      assert name[k] == Stamp(d)[k];
    }
  }

  /** The name of the file written on a date gives back that date's day number. */
  lemma StampDayOfFileName(d: Date, postfix: string)
    requires ValidDate(d)
    ensures StampDay(FileName(d, postfix)) == Some(DayNumber(d))
  {
    FileNameStamped(d, postfix);
    StampFields(d);
    MakeDayOfDate(d);
    var s := FileName(d, postfix)[..8];
    assert StampDay(FileName(d, postfix)) ==
           Some(MakeDay(DigitsValue(s[..4], 10), DigitsValue(s[4..6], 10) - 1, DigitsValue(s[6..8], 10)));
  }

  /** The options of one logger (src/core/logger.ts:23-28); the interval is in seconds. */
  datatype LoggerOptions = LoggerOptions(postfix: string, flushByCount: nat, flushByInterval: nat, reserveDays: nat)

  /** The level table (src/core/logger.ts:98-105). */
  const Info: LoggerOptions := LoggerOptions("I", 11, 600, 7)
  const Error: LoggerOptions := LoggerOptions("X", 0, 0, 7)
  const Event: LoggerOptions := LoggerOptions("E", 101, 600, 30)

  /**
   * The deletion test of `cleanup` as written (src/core/logger.ts:73-74): any file in the
   * shared directory whose name starts with a date more than `reserveDays` days before today.
   */
  predicate ExpiredAsWritten(name: string, options: LoggerOptions, today: Date)
    requires 1 <= today.month <= 12
  {
    match StampDay(name)
    case Some(day) => day + options.reserveDays < DayNumber(today)
    case None => false
  }

  /** The deletion test each logger evidently intends: only its own files, by its own retention. */
  predicate Expired(name: string, options: LoggerOptions, today: Date)
    requires 1 <= today.month <= 12
  {
    |name| >= 8 && name[8..] == options.postfix + ".log" && ExpiredAsWritten(name, options, today)
  }

  /** A logger's own file is deleted exactly when its date is more than the retention period ago. */
  lemma ExpiredOwnFile(d: Date, options: LoggerOptions, today: Date)
    requires ValidDate(d) && ValidDate(today)
    ensures Expired(FileName(d, options.postfix), options, today) <==> DayNumber(d) + options.reserveDays < DayNumber(today)
  {
    StampDayOfFileName(d, options.postfix);
    assert FileName(d, options.postfix)[8..] == options.postfix + ".log";
  }

  /** Names with different postfixes differ in what follows the stamp. */
  lemma PostfixDecides(a: string, b: string)
    requires a != b
    ensures a + ".log" != b + ".log"
  {
    if |a| == |b| {
      assert (a + ".log")[..|a|] == a && (b + ".log")[..|b|] == b;
    } else {
      assert |a + ".log"| != |b + ".log"|;
    }
  }

  /** A logger never deletes the files of a logger with another postfix. */
  lemma OtherLoggersFilesKept(d: Date, postfix: string, options: LoggerOptions, today: Date)
    requires ValidDate(d) && ValidDate(today)
    requires postfix != options.postfix
    ensures !Expired(FileName(d, postfix), options, today)
  {
    var name := FileName(d, postfix);
    assert name[8..] == postfix + ".log";
    PostfixDecides(postfix, options.postfix);
  }

  /**
   * As written, the cleanup of the info logger deletes event logs once they are more than
   * seven days old, although the event level keeps its files for thirty days.
   */
  lemma InfoCleanupTakesEventLogs(d: Date, today: Date)
    requires ValidDate(d) && ValidDate(today)
    ensures ExpiredAsWritten(FileName(d, Event.postfix), Info, today) <==> DayNumber(d) + 7 < DayNumber(today)
    ensures !Expired(FileName(d, Event.postfix), Info, today)
  {
    StampDayOfFileName(d, Event.postfix);
    OtherLoggersFilesKept(d, Event.postfix, Info, today);
  }

  /** The event log file of 2022-09-01. */
  lemma EventLogName()
    ensures FileName(Date(2022, 9, 1), "E") == "20220901E.log"
  {
    assert Decimal(2022, 4) == "2022" && Decimal(9, 2) == "09" && Decimal(1, 2) == "01";
  }

  /** The event log of 2022-09-01, on 2022-09-30: deleted by the info cleanup, due to stay 30 days. */
  lemma EventLogDeletedEarly()
    ensures ExpiredAsWritten("20220901E.log", Info, Date(2022, 9, 30))
    ensures !ExpiredAsWritten("20220901E.log", Event, Date(2022, 9, 30))
    ensures !Expired("20220901E.log", Info, Date(2022, 9, 30))
  {
    var d, today := Date(2022, 9, 1), Date(2022, 9, 30);
    EventLogName();
    assert DayNumber(today) == DayNumber(d) + 29;
    InfoCleanupTakesEventLogs(d, today);
    StampDayOfFileName(d, "E");
  }

  /** Which deletion test `cleanup` applies: the one written, or the one each logger evidently intends. */
  datatype DeletionTest = AsWritten | OwnFiles

  predicate Deletes(test: DeletionTest, name: string, options: LoggerOptions, today: Date)
    requires 1 <= today.month <= 12
  {
    match test
    case AsWritten => ExpiredAsWritten(name, options, today)
    case OwnFiles => Expired(name, options, today)
  }

  /** The names `cleanup` deletes under `test`, in directory order. */
  function ExpiredEntries(entries: seq<string>, test: DeletionTest, options: LoggerOptions, today: Date): (r: seq<string>)
    requires 1 <= today.month <= 12
    decreases |entries|
  {
    if entries == [] then []
    else
      var front := ExpiredEntries(entries[..|entries| - 1], test, options, today);
      var last := entries[|entries| - 1];
      if Deletes(test, last, options, today) then front + [last] else front
  }

  /** Exactly the entries the test selects are deleted. */
  lemma {:induction false} ExpiredEntriesMembers(entries: seq<string>, test: DeletionTest, options: LoggerOptions, today: Date)
    requires 1 <= today.month <= 12
    ensures forall name :: name in ExpiredEntries(entries, test, options, today) <==> name in entries && Deletes(test, name, options, today)
    decreases |entries|
  {
    if entries != [] {
      var front := entries[..|entries| - 1];
      ExpiredEntriesMembers(front, test, options, today);
      assert entries == front + [entries[|entries| - 1]];
    }
  }

  /** The corrected cleanup deletes a subset of what the written one deletes. */
  lemma OwnFilesWithinAsWritten(entries: seq<string>, options: LoggerOptions, today: Date)
    requires 1 <= today.month <= 12
    ensures forall name :: name in ExpiredEntries(entries, OwnFiles, options, today) ==> name in ExpiredEntries(entries, AsWritten, options, today)
  {
    ExpiredEntriesMembers(entries, OwnFiles, options, today);
    ExpiredEntriesMembers(entries, AsWritten, options, today);
  }

  /** On 2022-09-30 the info logger's cleanup unlinks the event log of 2022-09-01; corrected, it keeps it. */
  lemma InfoCleanupUnlinksEventLog()
    ensures ExpiredEntries(["20220901E.log"], AsWritten, Info, Date(2022, 9, 30)) == ["20220901E.log"]
    ensures ExpiredEntries(["20220901E.log"], OwnFiles, Info, Date(2022, 9, 30)) == []
  {
    EventLogDeletedEarly();
    assert ["20220901E.log"][..0] == [];
  }

  /** The unsynced-write counter, whether a flush timer is pending, and the number of syncs. */
  datatype Buffer = Buffer(count: nat, timerPending: bool, syncs: nat)

  /** The buffer after one `write` (src/core/logger.ts:86-93), the triggered flush included. */
  function AfterWrite(options: LoggerOptions, b: Buffer): (r: Buffer)
    ensures r.count <= options.flushByCount
    ensures r.timerPending <==> r.count > 0
  {
    if b.count + 1 > options.flushByCount then Buffer(0, false, b.syncs + 1)
    else Buffer(b.count + 1, true, b.syncs)
  }

  /** The buffer after `n` writes on one day, with no timer expiring in between. */
  function AfterWrites(options: LoggerOptions, b: Buffer, n: nat): Buffer {
    if n == 0 then b else AfterWrite(options, AfterWrites(options, b, n - 1))
  }

  /**
   * From a synced buffer, every run of `flushByCount + 1` writes ends with one sync:
   * after `q * (flushByCount + 1) + r` writes there were `q` syncs and `r` writes are unsynced.
   */
  lemma {:induction false} WritesFromSynced(options: LoggerOptions, syncs: nat, q: nat, r: nat)
    requires r <= options.flushByCount
    ensures AfterWrites(options, Buffer(0, false, syncs), q * (options.flushByCount + 1) + r) == Buffer(r, r > 0, syncs + q)
    decreases q, r
  {
    var k := options.flushByCount;
    if r > 0 {
      WritesFromSynced(options, syncs, q, r - 1);
    } else if q > 0 {
      WritesFromSynced(options, syncs, q - 1, k);
      assert q * (k + 1) == (q - 1) * (k + 1) + k + 1;
    }
  }

  /** With `flushByCount` 0, as for the error level, every write syncs at once. */
  lemma ZeroCountFlushesEveryWrite(options: LoggerOptions, b: Buffer)
    requires options.flushByCount == 0
    ensures AfterWrite(options, b) == Buffer(0, false, b.syncs + 1)
  {
  }

  /** The levels have distinct postfixes, and the error level syncs every write. */
  lemma LevelTable(b: Buffer)
    ensures Info.postfix != Error.postfix && Info.postfix != Event.postfix && Error.postfix != Event.postfix
    ensures AfterWrite(Error, b) == Buffer(0, false, b.syncs + 1)
    ensures AfterWrite(Info, Buffer(10, true, b.syncs)) == Buffer(11, true, b.syncs)
    ensures AfterWrite(Info, Buffer(11, true, b.syncs)) == Buffer(0, false, b.syncs + 1)
    ensures Event.reserveDays > Info.reserveDays == Error.reserveDays
  {
    ZeroCountFlushesEveryWrite(Error, b);
  }

  /**
   * The roll-over inside `flush` (src/core/logger.ts:64-66 with `init`, logger.ts:39-45) split
   * at its await, with the writes that land in between. `RollOverStarted` is the part that runs
   * at once, `NewFileOpened` the resumption after the new file is open.
   */
  datatype RollOverOrder =
    | CloseThenOpen   // as written: the old handle is closed without waiting, then the new file is awaited
    | OpenThenSwap    // intended: the new file is awaited first, then the handles are swapped and the old one closed

  datatype RollOverEvent = WriteLine(content: string) | RollOverStarted | NewFileOpened

  /**
   * The logger's handle as `write` sees it: the file it names, whether it is still usable, the
   * lines it took with their files, and the writes whose `handle.write` rejected.
   */
  datatype HandleView = HandleView(file: string, usable: bool, lines: seq<(string, string)>, rejected: nat)

  function RollOverStep(order: RollOverOrder, next: string, v: HandleView, e: RollOverEvent): HandleView
  {
    match e
    case WriteLine(content) =>
      if v.usable then v.(lines := v.lines + [(v.file, content)]) else v.(rejected := v.rejected + 1)
    case RollOverStarted =>
      if order == CloseThenOpen then v.(usable := false) else v
    case NewFileOpened =>
      v.(file := next, usable := true)
  }

  /** The events applied in order, the new file being `next`. */
  function RollOverRun(order: RollOverOrder, next: string, v: HandleView, events: seq<RollOverEvent>): HandleView
    decreases |events|
  {
    if events == [] then v else RollOverRun(order, next, RollOverStep(order, next, v, events[0]), events[1..])
  }

  /** The texts of the writes among the events, in order. */
  function WrittenTexts(events: seq<RollOverEvent>): seq<string>
  {
    if events == [] then []
    else (if events[0].WriteLine? then [events[0].content] else []) + WrittenTexts(events[1..])
  }

  /** The texts of the lines, in order. */
  function Texts(lines: seq<(string, string)>): seq<string>
  {
    seq(|lines|, i requires 0 <= i < |lines| => lines[i].1)
  }

  /** One write per text. */
  function WriteEvents(texts: seq<string>): (events: seq<RollOverEvent>)
    ensures |events| == |texts|
    ensures forall i :: 0 <= i < |texts| ==> events[i] == WriteLine(texts[i])
  {
    seq(|texts|, i requires 0 <= i < |texts| => WriteLine(texts[i]))
  }

  /** Running two traces one after the other is running their concatenation. */
  lemma {:induction false} RollOverRunAppend(order: RollOverOrder, next: string, v: HandleView, a: seq<RollOverEvent>, b: seq<RollOverEvent>)
    ensures RollOverRun(order, next, v, a + b) == RollOverRun(order, next, RollOverRun(order, next, v, a), b)
    decreases |a|
  {
    if a != [] {
      assert (a + b)[0] == a[0] && (a + b)[1..] == a[1..] + b;
      RollOverRunAppend(order, next, RollOverStep(order, next, v, a[0]), a[1..], b);
    } else {
      assert a + b == b;
    }
  }

  /** While the handle is unusable, every write rejects and none is recorded. */
  lemma {:induction false} WritesOnClosedHandle(order: RollOverOrder, next: string, v: HandleView, texts: seq<string>)
    requires !v.usable
    ensures RollOverRun(order, next, v, WriteEvents(texts)) == v.(rejected := v.rejected + |texts|)
    decreases |texts|
  {
    if texts != [] {
      assert WriteEvents(texts)[1..] == WriteEvents(texts[1..]);
      WritesOnClosedHandle(order, next, v.(rejected := v.rejected + 1), texts[1..]);
    }
  }

  /**
   * As written, every write between the start of the roll-over and the opening of the new file
   * rejects and is lost; the new file is in use afterwards.
   */
  lemma CloseThenOpenRejectsWindow(next: string, v: HandleView, texts: seq<string>)
    requires v.usable
    ensures RollOverRun(CloseThenOpen, next, v, [RollOverStarted] + WriteEvents(texts) + [NewFileOpened])
            == HandleView(next, true, v.lines, v.rejected + |texts|)
  {
    var closedView := v.(usable := false);
    RollOverRunAppend(CloseThenOpen, next, v, [RollOverStarted] + WriteEvents(texts), [NewFileOpened]);
    RollOverRunAppend(CloseThenOpen, next, v, [RollOverStarted], WriteEvents(texts));
    assert RollOverRun(CloseThenOpen, next, v, [RollOverStarted]) == closedView;
    WritesOnClosedHandle(CloseThenOpen, next, closedView, texts);
  }

  /**
   * Opening the new file before swapping, every write of any interleaving is taken: none
   * rejects, the earlier lines stay, and the texts follow in the order they were written.
   */
  lemma {:induction false} OpenThenSwapKeepsEveryWrite(next: string, v: HandleView, events: seq<RollOverEvent>)
    requires v.usable
    ensures RollOverRun(OpenThenSwap, next, v, events).usable
    ensures RollOverRun(OpenThenSwap, next, v, events).rejected == v.rejected
    ensures Texts(RollOverRun(OpenThenSwap, next, v, events).lines) == Texts(v.lines) + WrittenTexts(events)
    ensures v.lines <= RollOverRun(OpenThenSwap, next, v, events).lines
    decreases |events|
  {
    if events != [] {
      var u := RollOverStep(OpenThenSwap, next, v, events[0]);
      OpenThenSwapKeepsEveryWrite(next, u, events[1..]);
      if events[0].WriteLine? {
        assert Texts(u.lines) == Texts(v.lines) + [events[0].content];
      } else {
        assert u.lines == v.lines;
      }
    }
  }

  /** `Logger`: one level's file, buffer and timer. */
  class Logger {
    const options: LoggerOptions
    /** The date whose file is open. */
    var time: Date
    /** The open file, by name; `None` before `init`. */
    var handle: Option<string>
    /** The files whose handles were closed, in order. */
    var closed: seq<string>
    var notFlushCount: nat
    /** The pending flush timer, by token. */
    var notFlushTimeout: Option<nat>
    /** Tokens of the timers armed so far. */
    var timersArmed: nat
    /** The number of `sync` calls on the open files. */
    var syncs: nat
    /** Every line written, with the file it went to. */
    var lines: seq<(string, string)>

    /** The counter, the timer and the syncs, as the buffer model sees them. */
    function Pending(): Buffer
      reads this
    {
      Buffer(notFlushCount, notFlushTimeout.Some?, syncs)
    }

    /**
     * At most `flushByCount` writes are unsynced, a timer is pending exactly while some are,
     * and the open file is the one named for the current date.
     */
    ghost predicate Valid()
      reads this
    {
      && notFlushCount <= options.flushByCount
      && (notFlushTimeout.Some? <==> notFlushCount > 0)
      && ValidDate(time)
      && (handle.Some? ==> handle.value == FileName(time, options.postfix))
    }

    /** A logger created on the clock's date `now`, with no file open yet. */
    constructor (options: LoggerOptions, now: Date)
      requires ValidDate(now)
      ensures Valid()
      ensures this.options == options && time == now && handle == None && closed == []
      ensures Pending() == Buffer(0, false, 0) && lines == []
    {
      this.options := options;
      time := now;
      handle := None;
      closed := [];
      notFlushCount := 0;
      notFlushTimeout := None;
      timersArmed := 0;
      syncs := 0;
      lines := [];
    }

    /** `init` (src/core/logger.ts:39-45): close any open file, then open the current date's file. */
    method Init()
      requires ValidDate(time)
      modifies this
      ensures time == old(time)
      ensures handle == Some(FileName(time, options.postfix))
      ensures closed == if old(handle).Some? then old(closed) + [old(handle).value] else old(closed)
      ensures Pending() == old(Pending()) && timersArmed == old(timersArmed) && lines == old(lines)
    {
      if handle.Some? {
        closed := closed + [handle.value];
      }
      handle := Some(FileName(time, options.postfix));
    }

    /**
     * `flush` (src/core/logger.ts:54-69) on the clock's date `today`: sync, reset the counter,
     * drop the timer, and roll over to today's file when the date has changed.
     */
    method Flush(today: Date)
      requires Valid() && handle.Some? && ValidDate(today)
      modifies this
      ensures Valid()
      ensures Pending() == Buffer(0, false, old(syncs) + 1)
      ensures time == today
      ensures old(time) == today ==> handle == old(handle) && closed == old(closed)
      ensures old(time) != today ==>
                handle == Some(FileName(today, options.postfix)) && closed == old(closed) + [old(handle).value]
      ensures timersArmed == old(timersArmed) && lines == old(lines)
    {
      notFlushCount := 0;
      syncs := syncs + 1;
      notFlushTimeout := None;
      if time != today {
        time := today;
        Init();
        notFlushTimeout := None;
      }
    }

    /**
     * `write` (src/core/logger.ts:84-94): the line goes to the open file; the write that
     * would exceed `flushByCount` flushes, any other counts, and the first unsynced one arms
     * the timer.
     */
    method Write(content: string, today: Date)
      requires Valid() && handle.Some? && ValidDate(today)
      modifies this
      ensures Valid()
      ensures lines == old(lines) + [(FileName(old(time), options.postfix), content)]
      ensures Pending() == AfterWrite(options, old(Pending()))
      ensures notFlushTimeout.Some? && notFlushTimeout != old(notFlushTimeout) ==>
                old(notFlushCount) == 0 && notFlushCount == 1 && notFlushTimeout == Some(old(timersArmed))
      ensures old(notFlushCount) + 1 > options.flushByCount ==>
                time == today && (old(time) != today ==> handle == Some(FileName(today, options.postfix)))
      ensures old(notFlushCount) + 1 > options.flushByCount ==>
                timersArmed == old(timersArmed) && notFlushTimeout == None
                && (old(time) == today ==> handle == old(handle) && closed == old(closed))
                && (old(time) != today ==> closed == old(closed) + [old(handle).value])
      ensures old(notFlushCount) + 1 <= options.flushByCount ==> time == old(time) && handle == old(handle)
      ensures old(notFlushCount) + 1 <= options.flushByCount ==>
                closed == old(closed)
                && timersArmed == old(timersArmed) + (if old(notFlushCount) == 0 then 1 else 0)
                && notFlushTimeout == (if old(notFlushCount) == 0 then Some(old(timersArmed)) else old(notFlushTimeout))
    {
      lines := lines + [(handle.value, content)];
      if notFlushCount + 1 > options.flushByCount {
        Flush(today);
      } else {
        notFlushCount := notFlushCount + 1;
        if notFlushCount == 1 {
          notFlushTimeout := Some(timersArmed);
          timersArmed := timersArmed + 1;
        }
      }
    }

    /** The pending timer expires (src/core/logger.ts:91): it flushes. */
    method FireTimeout(today: Date)
      requires Valid() && handle.Some? && notFlushTimeout.Some? && ValidDate(today)
      modifies this
      ensures Valid()
      ensures Pending() == Buffer(0, false, old(syncs) + 1) && time == today
      ensures old(time) != today ==> handle == Some(FileName(today, options.postfix))
      ensures old(time) == today ==> handle == old(handle) && closed == old(closed)
      ensures old(time) != today ==> closed == old(closed) + [old(handle).value]
      ensures timersArmed == old(timersArmed) && lines == old(lines)
    {
      Flush(today);
    }

    /** `deinit` (src/core/logger.ts:47-52): flush and close the open file, if any. */
    method Deinit(today: Date)
      requires Valid() && ValidDate(today)
      modifies this
      ensures Valid()
      ensures old(handle).None? ==> closed == old(closed) && Pending() == old(Pending())
      ensures old(handle).None? ==> time == old(time) && handle == old(handle) && notFlushTimeout == old(notFlushTimeout)
      ensures old(handle).Some? ==>
                Pending() == Buffer(0, false, old(syncs) + 1) && handle.Some? && closed != [] && closed[|closed| - 1] == handle.value
                && handle.value == FileName(today, options.postfix)
      ensures old(handle).Some? ==>
                time == today
                && closed == old(closed) + (if old(time) != today then [old(handle).value] else []) + [FileName(today, options.postfix)]
      ensures timersArmed == old(timersArmed) && lines == old(lines)
    {
      if handle.Some? {
        Flush(today);
        closed := closed + [handle.value];
      }
    }

    /**
     * `cleanup` (src/core/logger.ts:71-82) over the directory entries, on the clock's date
     * `today`, with the deletion test as written: the names unlinked.
     */
    method Cleanup(entries: seq<string>, today: Date) returns (deleted: seq<string>)
      requires ValidDate(today)
      ensures deleted == ExpiredEntries(entries, AsWritten, options, today)
    {
      deleted := [];
      for i := 0 to |entries|
        invariant deleted == ExpiredEntries(entries[..i], AsWritten, options, today)
      {
        assert entries[..i + 1][..i] == entries[..i];
        if ExpiredAsWritten(entries[i], options, today) {
          deleted := deleted + [entries[i]];
        }
      }
      assert entries[..|entries|] == entries;
    }
  }
}
