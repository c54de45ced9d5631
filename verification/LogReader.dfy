/**
 Reading a runtime log: a byte-limited, line-limited scan of timestamped lines. The stream has no
 carriage returns, which the line scanner would drop.
 */
module LogReader {
  import opened Text

  const MAX_BYTES := 2 * 1024 * 1024
  /** The scanner's buffer: a line as long as this does not fit. */
  const MAX_LINE := 256 * 1024

  type Time = int

  datatype LogLine = LogLine(at: Time, message: string)

  datatype Query = Query(since: Option<Time>, until: Option<Time>, follow: bool, tail: int)

  // ---- Lines ----

  /** Where the first line ends: at its newline, or at the end. */
  function LineEnd(s: string): (e: nat)
    ensures e <= |s| && '\n' !in s[..e] && (e < |s| ==> s[e] == '\n')
  {
    if s == "" || s[0] == '\n' then 0
    else
      var e := LineEnd(s[1..]) + 1;
      assert s[..e] == [s[0]] + s[1..][..e - 1];
      e
  }

  function First(s: string): string {
    s[..LineEnd(s)]
  }

  function Rest(s: string): (r: string)
    ensures s != "" ==> |r| < |s|
  {
    if LineEnd(s) == |s| then "" else s[LineEnd(s) + 1..]
  }

  /** The lines of a stream; an end without a newline still ends a line. */
  function Lines(s: string): seq<string>
    decreases |s|
  {
    if s == "" then [] else [First(s)] + Lines(Rest(s))
  }

  function Unlines(lines: seq<string>): string {
    if lines == [] then "" else lines[0] + "\n" + Unlines(lines[1..])
  }

  /** A stream with its last line ended. */
  function Ended(s: string): string {
    if s == "" || s[|s| - 1] == '\n' then s else s + "\n"
  }

  lemma EndedSplits(s: string)
    requires s != ""
    ensures Ended(s) == First(s) + "\n" + Ended(Rest(s)) && '\n' !in First(s)
  {
    var e := LineEnd(s);
    if e == |s| {
      assert First(s) == s && s[|s| - 1] in s[..e];
    } else {
      assert s == s[..e] + "\n" + Rest(s);
    }
  }

  /** Lines are newline-free, and put together again they are the stream. */
  lemma {:induction false} LinesRoundTrip(s: string)
    ensures Unlines(Lines(s)) == Ended(s) && forall l :: l in Lines(s) ==> '\n' !in l
    decreases |s|
  {
    if s != "" {
      EndedSplits(s);
      LinesRoundTrip(Rest(s));
      assert Lines(s)[0] == First(s) && Lines(s)[1..] == Lines(Rest(s));
    }
  }

  lemma {:induction false} UnlinesAppend(a: seq<string>, b: seq<string>)
    ensures Unlines(a + b) == Unlines(a) + Unlines(b)
  {
    if a == [] {
      assert a + b == b;
    } else {
      assert (a + b)[1..] == a[1..] + b;
      UnlinesAppend(a[1..], b);
    }
  }

  // ---- What a query wants ----

  /** Splits a raw line at its first blank; `None` when there is none or the timestamp does not parse. */
  function Stamped(parse: string -> Option<Time>, raw: string): Option<LogLine> {
    var cut := Blank0(raw);
    if cut == |raw| then None
    else
      match parse(raw[..cut])
      case None => None
      case Some(at) => Some(LogLine(at, raw[cut + 1..]))
  }

  /** A stamped line is a stamp that parses, without a blank, then a blank, then the message. */
  lemma StampedIs(parse: string -> Option<Time>, stamp: string, message: string)
    requires ' ' !in stamp
    ensures Stamped(parse, stamp + " " + message) == match parse(stamp) case None => None case Some(at) => Some(LogLine(at, message))
  {
    var raw := stamp + " " + message;
    assert raw[..|stamp|] == stamp && raw[|stamp|] == ' ' && raw[|stamp| + 1..] == message;
    assert Blank0(raw) == |stamp|;
  }

  function Blank0(s: string): (e: nat)
    ensures e <= |s| && ' ' !in s[..e] && (e < |s| ==> s[e] == ' ')
  {
    if s == "" || s[0] == ' ' then 0
    else
      var e := Blank0(s[1..]) + 1;
      assert s[..e] == [s[0]] + s[1..][..e - 1];
      e
  }

  /** The half-open range of the query. */
  predicate Wanted(q: Query, at: Time) {
    (q.since.Some? ==> q.since.value <= at) && (q.until.Some? ==> at < q.until.value)
  }

  /** The readable lines in range, in order. */
  function Select(q: Query, parse: string -> Option<Time>, lines: seq<string>): seq<LogLine> {
    if lines == [] then []
    else
      var before, last := Select(q, parse, lines[..|lines| - 1]), Stamped(parse, lines[|lines| - 1]);
      if last.Some? && Wanted(q, last.value.at) then before + [last.value] else before
  }

  lemma {:induction false} SelectPrefix(q: Query, parse: string -> Option<Time>, a: seq<string>, b: seq<string>)
    ensures Select(q, parse, a) <= Select(q, parse, a + b)
  {
    if b == [] {
      assert a + b == a;
    } else {
      assert (a + b)[..|a + b| - 1] == a + b[..|b| - 1];
      SelectPrefix(q, parse, a, b[..|b| - 1]);
    }
  }

  // ---- The reader ----

  datatype Outcome = Outcome(emitted: seq<LogLine>, truncated: bool, failed: bool)

  function Limit(s: string, n: nat): string {
    if |s| <= n then s else s[..n]
  }

  lemma LineEndIs(s: string, e: nat)
    requires e <= |s| && '\n' !in s[..e] && (e < |s| ==> s[e] == '\n')
    ensures LineEnd(s) == e
  {
  }

  /** The next line and what follows it; `None` when the line is too long for the scanner. */
  method NextLine(s: string) returns (line: Option<string>, rest: string)
    requires s != ""
    ensures line == if |First(s)| < 262_144 then Some(First(s)) else None
    ensures rest == Rest(s)
  {
    var e := 0;
    while e < |s| && s[e] != '\n'
      invariant 0 <= e <= |s| && '\n' !in s[..e]
    {
      e := e + 1;
    }
    LineEndIs(s, e);
    line := if e < MAX_LINE then Some(s[..e]) else None;
    rest := if e == |s| then "" else s[e + 1..];
  }

  lemma LimitCuts(stream: string)
    ensures |Ended(Limit(stream, MAX_BYTES + 1))| >= MAX_BYTES <==> |Ended(stream)| >= MAX_BYTES
    ensures Limit(stream, MAX_BYTES + 1) == stream || |Ended(stream)| >= MAX_BYTES
  {
  }

  /** More lines than the limit allows; a negative limit allows none. */
  predicate Over(lines: nat, tail: int) {
    lines > 0 && lines > tail
  }

  /** What a non-follow read promises: truncation is reported exactly when the stream or the range is too long for the limits. */
  ghost predicate Faithful(stream: string, q: Query, parse: string -> Option<Time>, o: Outcome) {
    var wanted := Select(q, parse, Lines(stream));
    && (o.truncated <==> |Ended(stream)| >= MAX_BYTES || Over(|wanted|, q.tail))
    && (|Ended(stream)| <= MAX_BYTES && !Over(|wanted|, q.tail) ==> o.emitted == wanted)
  }

  /** How far a read of the lines `all` has come: `done` are read, `left` are not, and what is wanted of `done` is emitted. */
  ghost predicate Reading(q: Query, parse: string -> Option<Time>, all: seq<string>,
                          done: seq<string>, left: seq<string>, bytes: int, emitted: seq<LogLine>) {
    all == done + left && bytes == |Unlines(done)| && emitted == Select(q, parse, done)
  }

  /** What one more line adds. */
  function Taken(q: Query, parse: string -> Option<Time>, line: string): seq<LogLine> {
    var l := Stamped(parse, line);
    if l.Some? && Wanted(q, l.value.at) then [l.value] else []
  }

  lemma SelectAppend(q: Query, parse: string -> Option<Time>, done: seq<string>, line: string)
    ensures Select(q, parse, done + [line]) == Select(q, parse, done) + Taken(q, parse, line)
  {
    assert (done + [line])[..|done|] == done;
  }

  lemma SizeAppend(done: seq<string>, line: string)
    ensures |Unlines(done + [line])| == |Unlines(done)| + |line| + 1
  {
    UnlinesAppend(done, [line]);
  }

  lemma ReadLine(q: Query, parse: string -> Option<Time>, all: seq<string>,
                 done: seq<string>, line: string, left: seq<string>, bytes: int, emitted: seq<LogLine>)
    requires Reading(q, parse, all, done, [line] + left, bytes, emitted)
    ensures line in all && Reading(q, parse, all, done + [line], left, bytes + |line| + 1, emitted + Taken(q, parse, line))
  {
    assert all == (done + [line]) + left && all[|done|] == line;
    SizeAppend(done, line);
    SelectAppend(q, parse, done, line);
  }

  lemma EmittedIsPrefix(q: Query, parse: string -> Option<Time>, all: seq<string>,
                        done: seq<string>, left: seq<string>, bytes: int, emitted: seq<LogLine>)
    requires Reading(q, parse, all, done, left, bytes, emitted)
    ensures emitted <= Select(q, parse, all) && bytes <= |Unlines(all)|
  {
    SelectPrefix(q, parse, done, left);
    UnlinesAppend(done, left);
  }

  /** Nothing outside the reader goes wrong, and every line fits and is stamped. */
  ghost predicate Sound(lines: seq<string>, parse: string -> Option<Time>, broken: bool, cancelled: nat -> bool, emitFails: nat -> bool) {
    && !broken && (forall i :: !cancelled(i)) && (forall i :: !emitFails(i))
    && forall l :: l in lines ==> |l| < MAX_LINE && Stamped(parse, l).Some?
  }

  /** What goes on around a read: whether the stream breaks, and which of the caller's checks and emits fail. */
  datatype Around = Around(broken: bool, cancelled: nat -> bool, emitFails: nat -> bool)

  /** The line is in range but for the end of the range. */
  ghost predicate Past(q: Query, parse: string -> Option<Time>, line: string) {
    var l := Stamped(parse, line);
    l.Some? && q.until.Some? && q.until.value <= l.value.at && (q.since.Some? ==> q.since.value <= l.value.at)
  }

  /** The wanted lines up to the first one past the range, or all. */
  ghost predicate UpToPast(q: Query, parse: string -> Option<Time>, lines: seq<string>, emitted: seq<LogLine>) {
    exists n :: && 0 <= n <= |lines| && emitted == Select(q, parse, lines[..n]) && NonePast(q, parse, lines[..n])
                && (n < |lines| ==> Past(q, parse, lines[n]))
  }

  ghost predicate NonePast(q: Query, parse: string -> Option<Time>, lines: seq<string>) {
    forall i :: 0 <= i < |lines| ==> !Past(q, parse, lines[i])
  }

  /** What a following read promises: it ends at the first line past the range, or with the stream; truncation means that was too long. */
  ghost predicate FollowedTo(stream: string, q: Query, parse: string -> Option<Time>, o: Outcome) {
    && (o.truncated ==> |Ended(stream)| >= MAX_BYTES)
    && (!o.truncated ==> UpToPast(q, parse, Lines(Limit(stream, MAX_BYTES + 1)), o.emitted))
  }

  ghost predicate Cancelled(a: Around) {
    forall i :: a.cancelled(i)
  }

  ghost predicate Refused(a: Around) {
    forall i :: a.emitFails(i)
  }

  /** A read heeds what goes on around it: cancelled throughout it fails, nothing is emitted that was not taken, and a break is reported. */
  ghost predicate Heeds(stream: string, a: Around, o: Outcome) {
    && (Cancelled(a) && stream != "" ==> o.failed)
    && (Refused(a) ==> o.emitted == [])
    && (stream == "" ==> (o.failed <==> a.broken))
  }

  /** What a read promises of its outcome. */
  ghost predicate Promised(stream: string, q: Query, parse: string -> Option<Time>, a: Around, o: Outcome) {
    var lines := Lines(Limit(stream, MAX_BYTES + 1));
    && o.emitted <= Select(q, parse, lines) && (!q.follow ==> !Over(|o.emitted|, q.tail))
    && (!o.failed ==> if q.follow then FollowedTo(stream, q, parse, o) else Faithful(stream, q, parse, o))
    && (o.failed ==> !o.truncated && !Sound(lines, parse, a.broken && |stream| <= MAX_BYTES, a.cancelled, a.emitFails))
  }

  /** What has been emitted of a stream is in order and within the line limit. */
  ghost predicate Emitted(stream: string, q: Query, parse: string -> Option<Time>, emitted: seq<LogLine>) {
    emitted <= Select(q, parse, Lines(Limit(stream, MAX_BYTES + 1))) && (!q.follow ==> !Over(|emitted|, q.tail))
  }

  lemma FailedAt(stream: string, q: Query, parse: string -> Option<Time>, a: Around, emitted: seq<LogLine>, line: string, calls: nat)
    requires Emitted(stream, q, parse, emitted) && line in Lines(Limit(stream, MAX_BYTES + 1))
    requires |line| >= MAX_LINE || Stamped(parse, line).None? || a.cancelled(calls) || a.emitFails(calls)
    ensures Promised(stream, q, parse, a, Outcome(emitted, false, true))
  {
  }

  lemma TooLong(stream: string, q: Query, parse: string -> Option<Time>, a: Around, bytes: int, emitted: seq<LogLine>)
    requires Emitted(stream, q, parse, emitted) && MAX_BYTES < bytes <= |Unlines(Lines(Limit(stream, MAX_BYTES + 1)))|
    ensures Promised(stream, q, parse, a, Outcome(emitted, true, false))
  {
    LimitCuts(stream);
    LinesRoundTrip(Limit(stream, MAX_BYTES + 1));
  }

  lemma TooMany(stream: string, q: Query, parse: string -> Option<Time>, a: Around, emitted: seq<LogLine>)
    requires Emitted(stream, q, parse, emitted) && !q.follow && Over(|Select(q, parse, Lines(Limit(stream, MAX_BYTES + 1)))|, q.tail)
    ensures Promised(stream, q, parse, a, Outcome(emitted, true, false))
  {
    LimitCuts(stream);
  }

  lemma PastRange(stream: string, q: Query, parse: string -> Option<Time>, a: Around, done: seq<string>, line: string, left: seq<string>, emitted: seq<LogLine>)
    requires Emitted(stream, q, parse, emitted) && q.follow && Lines(Limit(stream, MAX_BYTES + 1)) == done + ([line] + left)
    requires emitted == Select(q, parse, done) && NonePast(q, parse, done) && Past(q, parse, line)
    ensures Promised(stream, q, parse, a, Outcome(emitted, false, false))
  {
    var lines := Lines(Limit(stream, MAX_BYTES + 1));
    assert lines[..|done|] == done && lines[|done|] == line;
    assert UpToPast(q, parse, lines, emitted);
  }

  lemma AtStart(stream: string, q: Query, parse: string -> Option<Time>, a: Around)
    ensures Here(stream, q, parse, a, Limit(stream, MAX_BYTES + 1), [], 0, [])
  {
    assert [] + Lines(Limit(stream, MAX_BYTES + 1)) == Lines(Limit(stream, MAX_BYTES + 1));
  }

  lemma AtEnd(stream: string, q: Query, parse: string -> Option<Time>, a: Around, done: seq<string>, bytes: int, emitted: seq<LogLine>)
    requires Here(stream, q, parse, a, "", done, bytes, emitted)
    ensures var o := if a.broken && |stream| <= MAX_BYTES then Outcome(emitted, false, true) else Outcome(emitted, bytes >= MAX_BYTES, false);
            Promised(stream, q, parse, a, o) && Heeds(stream, a, o)
  {
    LimitCuts(stream);
    LinesRoundTrip(Limit(stream, MAX_BYTES + 1));
    var all := Lines(Limit(stream, MAX_BYTES + 1));
    assert done == all && all[..|all|] == all;
  }

  lemma SplitLines(s: string)
    requires s != ""
    ensures Lines(s) == [First(s)] + Lines(Rest(s))
  {
  }

  datatype Turn = Stop(outcome: Outcome) | Go(emitted: seq<LogLine>)

  /** Emits a line that is wanted, and says whether reading goes on. */
  method TakeLine(stream: string, q: Query, parse: string -> Option<Time>, around: Around, line: string, calls: nat, emitted: seq<LogLine>,
                  ghost done: seq<string>, ghost left: seq<string>) returns (turn: Turn)
    requires Emitted(stream, q, parse, emitted) && line in Lines(Limit(stream, MAX_BYTES + 1))
    requires Lines(Limit(stream, MAX_BYTES + 1)) == done + ([line] + left) && emitted == Select(q, parse, done)
    requires q.follow ==> NonePast(q, parse, done)
    requires emitted + Taken(q, parse, line) <= Select(q, parse, Lines(Limit(stream, MAX_BYTES + 1)))
    ensures turn.Stop? ==> Promised(stream, q, parse, around, turn.outcome)
    ensures turn.Go? ==> turn.emitted == emitted + Taken(q, parse, line) && Emitted(stream, q, parse, turn.emitted)
    ensures turn.Go? && q.follow ==> !Past(q, parse, line)
    ensures Refused(around) ==> if turn.Go? then turn.emitted == emitted else turn.outcome.emitted == emitted
  {
    var stamped := Stamped(parse, line);
    if stamped.None? {
      FailedAt(stream, q, parse, around, emitted, line, calls);
      return Stop(Outcome(emitted, false, true));
    }
    if q.since.Some? && stamped.value.at < q.since.value {
      return Go(emitted);
    }
    if q.until.Some? && !(stamped.value.at < q.until.value) {
      if q.follow {
        PastRange(stream, q, parse, around, done, line, left, emitted);
        return Stop(Outcome(emitted, false, false));
      }
      return Go(emitted);
    }
    if !q.follow && |emitted| >= q.tail {
      TooMany(stream, q, parse, around, emitted);
      return Stop(Outcome(emitted, true, false));
    }
    if around.emitFails(calls) {
      FailedAt(stream, q, parse, around, emitted, line, calls);
      return Stop(Outcome(emitted, false, true));
    }
    turn := Go(emitted + [stamped.value]);
  }

  /** Reading has come to `s`: what it did up to there. */
  ghost predicate Here(stream: string, q: Query, parse: string -> Option<Time>, a: Around, s: string, done: seq<string>, bytes: int, emitted: seq<LogLine>) {
    var data := Limit(stream, MAX_BYTES + 1);
    && Reading(q, parse, Lines(data), done, Lines(s), bytes, emitted) && 0 <= bytes <= MAX_BYTES
    && Emitted(stream, q, parse, emitted) && (q.follow ==> NonePast(q, parse, done))
    && (Cancelled(a) ==> s == data) && (Refused(a) ==> emitted == [])
  }

  lemma HereNext(stream: string, q: Query, parse: string -> Option<Time>, a: Around, s: string, done: seq<string>, bytes: int,
                 emitted: seq<LogLine>, more: seq<LogLine>)
    requires Here(stream, q, parse, a, s, done, bytes, emitted) && s != "" && !Cancelled(a) && bytes + |First(s)| + 1 <= MAX_BYTES
    requires more == emitted + Taken(q, parse, First(s)) && Emitted(stream, q, parse, more)
    requires (q.follow ==> !Past(q, parse, First(s))) && (Refused(a) ==> more == [])
    ensures Here(stream, q, parse, a, Rest(s), done + [First(s)], bytes + |First(s)| + 1, more)
  {
    SplitLines(s);
    ReadLine(q, parse, Lines(Limit(stream, MAX_BYTES + 1)), done, First(s), Lines(Rest(s)), bytes, emitted);
  }

  /** Reads the next line. */
  method ReadOne(stream: string, q: Query, parse: string -> Option<Time>, around: Around, s: string, calls: nat, bytes: int, emitted: seq<LogLine>,
                 ghost done: seq<string>) returns (turn: Turn, rest: string, size: int)
    requires Here(stream, q, parse, around, s, done, bytes, emitted) && s != ""
    ensures |rest| < |s|
    ensures turn.Stop? ==> Promised(stream, q, parse, around, turn.outcome) && Heeds(stream, around, turn.outcome)
    ensures turn.Go? ==> Here(stream, q, parse, around, rest, done + [First(s)], size, turn.emitted)
  {
    var line;
    line, rest := NextLine(s);
    size := bytes;
    SplitLines(s);
    ghost var all := Lines(Limit(stream, MAX_BYTES + 1));
    ReadLine(q, parse, all, done, First(s), Lines(rest), bytes, emitted);
    if line.None? || around.cancelled(calls) {
      FailedAt(stream, q, parse, around, emitted, First(s), calls);
      return Stop(Outcome(emitted, false, true)), rest, size;
    }
    size := bytes + |line.value| + 1;
    EmittedIsPrefix(q, parse, all, done + [line.value], Lines(rest), size, emitted + Taken(q, parse, line.value));
    if size > MAX_BYTES {
      TooLong(stream, q, parse, around, size, emitted);
      return Stop(Outcome(emitted, true, false)), rest, size;
    }
    turn := TakeLine(stream, q, parse, around, line.value, calls, emitted, done, Lines(rest));
    if turn.Go? {
      HereNext(stream, q, parse, around, s, done, bytes, emitted, turn.emitted);
    }
  }

  /** Reads the log. */
  method ReadRuntimeLogs(stream: string, q: Query, parse: string -> Option<Time>, around: Around) returns (o: Outcome)
    ensures Promised(stream, q, parse, around, o) && Heeds(stream, around, o)
  {
    var data := Limit(stream, MAX_BYTES + 1);
    var s, bytes, emitted, calls := data, 0, [], 0;
    ghost var done := [];
    AtStart(stream, q, parse, around);
    while s != ""
      invariant Here(stream, q, parse, around, s, done, bytes, emitted)
      decreases |s|
    {
      var turn, rest, size := ReadOne(stream, q, parse, around, s, calls, bytes, emitted, done);
      if turn.Stop? {
        return turn.outcome;
      }
      s, done, bytes, emitted, calls := rest, done + [First(s)], size, turn.emitted, calls + 1;
    }
    AtEnd(stream, q, parse, around, done, bytes, emitted);
    if around.broken && |stream| <= MAX_BYTES {
      return Outcome(emitted, false, true);
    }
    o := Outcome(emitted, bytes >= MAX_BYTES, false);
  }

  /**
   Of the streams shorter than the byte limit whose range fits, exactly those are reported truncated that
   lack one byte to the limit and the newline of their last line: nothing was cut from them.
   */
  lemma FittingStreamTruncatedIff(stream: string, q: Query, parse: string -> Option<Time>, o: Outcome)
    requires Faithful(stream, q, parse, o) && |stream| < MAX_BYTES && !Over(|Select(q, parse, Lines(stream))|, q.tail)
    ensures o.truncated <==> |stream| == MAX_BYTES - 1 && stream[|stream| - 1] != '\n'
    ensures o.emitted == Select(q, parse, Lines(stream))
  {
  }

  // ---- Such a stream ----

  function Repeated(line: string, n: nat): (lines: seq<string>)
    ensures |lines| == n
  {
    if n == 0 then [] else Repeated(line, n - 1) + [line]
  }

  lemma {:induction false} RepeatedFront(line: string, n: nat)
    ensures [line] + Repeated(line, n) == Repeated(line, n + 1)
  {
    if n > 0 {
      RepeatedFront(line, n - 1);
    }
  }

  lemma LinesOfOne(line: string)
    requires '\n' !in line && line != ""
    ensures Lines(line) == [line]
  {
    LineEndIs(line, |line|);
    assert First(line) == line[..|line|] == line && Rest(line) == "";
    assert Lines(line) == [First(line)] + Lines(Rest(line));
  }

  lemma LinesOfMore(line: string, rest: string)
    requires '\n' !in line
    ensures Lines(line + "\n" + rest) == [line] + Lines(rest)
  {
    var s := line + "\n" + rest;
    assert s[..|line|] == line && s[|line| + 1..] == rest;
    LineEndIs(s, |line|);
    assert First(s) == line && Rest(s) == rest;
    assert Lines(s) == [First(s)] + Lines(Rest(s));
  }

  lemma OneCopyMore(line: string, rest: string, n: nat)
    requires '\n' !in line && Lines(rest) == Repeated(line, n)
    ensures Lines(line + "\n" + rest) == Repeated(line, n + 1)
  {
    LinesOfMore(line, rest);
    RepeatedFront(line, n);
  }

  ghost predicate Unended(s: string, size: nat) {
    |s| == size && s != "" && s[|s| - 1] != '\n'
  }

  /** `n` ended lines of 2047 bytes and one more without its newline. */
  ghost predicate Made(s: string, line: string, n: nat) {
    Unended(s, 2048 * n + 2047) && Lines(s) == Repeated(line, n + 1)
  }

  lemma StaysUnended(line: string, rest: string, size: nat)
    requires Unended(rest, size)
    ensures Unended(line + "\n" + rest, |line| + 1 + size)
  {
  }

  lemma MadeOfOne(line: string)
    requires '\n' !in line && |line| == 2047
    ensures Made(line, line, 0)
  {
    assert line[2046] in line;
    LinesOfOne(line);
    RepeatedFront(line, 0);
  }

  lemma MadeOfMore(line: string, rest: string, n: nat)
    requires '\n' !in line && |line| == 2047 && Made(rest, line, n)
    ensures Made(line + "\n" + rest, line, n + 1)
  {
    StaysUnended(line, rest, 2048 * n + 2047);
    OneCopyMore(line, rest, n + 1);
  }

  lemma Stream(line: string, n: nat) returns (s: string)
    requires '\n' !in line && |line| == 2047
    ensures Made(s, line, n)
  {
    s := line;
    MadeOfOne(line);
    for i := 0 to n
      invariant Made(s, line, i)
    {
      MadeOfMore(line, s, i);
      s := line + "\n" + s;
    }
  }

  lemma SelectsOneMore(q: Query, parse: string -> Option<Time>, lines: seq<string>, line: string)
    requires q.since.None? && q.until.None? && Stamped(parse, line).Some?
    ensures |Select(q, parse, lines + [line])| == |Select(q, parse, lines)| + 1
  {
    assert (lines + [line])[..|lines|] == lines;
  }

  lemma {:induction false} SelectsAll(q: Query, parse: string -> Option<Time>, line: string, n: nat)
    requires q.since.None? && q.until.None? && Stamped(parse, line).Some?
    ensures |Select(q, parse, Repeated(line, n))| == n
  {
    if n > 0 {
      SelectsAll(q, parse, line, n - 1);
      SelectsOneMore(q, parse, Repeated(line, n - 1), line);
    }
  }

  lemma {:induction false} InRepeated(line: string, n: nat, l: string)
    requires l in Repeated(line, n)
    ensures l == line
  {
    if n > 0 && l in Repeated(line, n - 1) {
      InRepeated(line, n - 1, l);
    }
  }

  /** Nothing around the read goes wrong. */
  ghost predicate Undisturbed(a: Around) {
    !a.broken && (forall i :: !a.cancelled(i)) && (forall i :: !a.emitFails(i))
  }

  lemma CopiesAreSound(line: string, n: nat, parse: string -> Option<Time>, a: Around)
    requires |line| < MAX_LINE && Stamped(parse, line).Some? && Undisturbed(a)
    ensures Sound(Repeated(line, n), parse, a.broken, a.cancelled, a.emitFails)
  {
    forall l | l in Repeated(line, n) ensures |l| < MAX_LINE && Stamped(parse, l).Some? {
      InRepeated(line, n, l);
    }
  }

  lemma CutOrFailed(stream: string, line: string, q: Query, parse: string -> Option<Time>, a: Around, o: Outcome)
    requires Unended(stream, MAX_BYTES - 1) && Lines(stream) == Repeated(line, 1024) && |line| < MAX_LINE && Stamped(parse, line).Some?
    requires q.since.None? && q.until.None? && !q.follow && q.tail >= 1024 && Promised(stream, q, parse, a, o)
    ensures !o.failed ==> o.truncated && |o.emitted| == 1024
    ensures Undisturbed(a) ==> !o.failed
  {
    SelectsAll(q, parse, line, 1024);
    if !o.failed {
      FittingStreamTruncatedIff(stream, q, parse, o);
    }
    if Undisturbed(a) {
      CopiesAreSound(line, 1024, parse, a);
    }
  }

  /**
   The input: 1024 stamped lines of 2047 bytes, the last without its newline. Whatever the read does that
   does not fail, it emits all of them and reports them truncated; undisturbed it does not fail.
   */
  lemma FittingStreamIsCut(line: string, q: Query, parse: string -> Option<Time>) returns (stream: string)
    requires |line| == 2047 && '\n' !in line && Stamped(parse, line).Some?
    requires q.since.None? && q.until.None? && !q.follow && q.tail >= 1024
    ensures |stream| < MAX_BYTES && Lines(stream) == Repeated(line, 1024)
    ensures forall a, o :: Promised(stream, q, parse, a, o) && !o.failed ==> o.truncated && |o.emitted| == 1024
    ensures forall a, o :: Promised(stream, q, parse, a, o) && Undisturbed(a) ==> !o.failed
  {
    stream := Stream(line, 1023);
    forall a, o | Promised(stream, q, parse, a, o)
      ensures (!o.failed ==> o.truncated && |o.emitted| == 1024) && (Undisturbed(a) ==> !o.failed)
    {
      CutOrFailed(stream, line, q, parse, a, o);
    }
  }
}
